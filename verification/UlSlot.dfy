/** Uplink side of one UE slot in FDD: random access response and Msg3, uplink HARQ
    rounds, PHICH, block errors and uplink failure.
 */
module UlSlot {
  import opened FrameTiming

  const PROCESSES: nat := 8

  datatype Mode = NotSynched | Prach | RaResponse | Pusch

  /** blockLimit: Mlimit; msg3Limit: maxHARQ_Msg3Tx; errorLimit:
      ULSCH_max_consecutive_errors. */
  datatype Config = Config(blockLimit: nat, msg3Limit: nat, errorLimit: nat)

  predicate ConfigOk(c: Config) {
    c.blockLimit > 0 && c.msg3Limit > 0 && c.errorLimit > 0
  }

  /** One HARQ process: round, scheduling flag, and PHICH to send. */
  datatype Process = Process(round: nat, scheduled: bool, phich: bool, phichAck: bool, errors: nat)

  datatype Slot = Slot(
    rnti: nat, mode: Mode, msg3Active: bool, msg3Frame: nat, msg3Subframe: nat, msg3Flag: bool,
    procs: seq<Process>, consecutive: nat)

  predicate Valid(s: Slot) {
    |s.procs| == PROCESSES
  }

  /** clean_eNb_ulsch on one process: the pending PHICH is left, as a NAK. */
  function CleanProcess(p: Process): Process {
    Process(0, false, p.phich, false, 0)
  }

  /** mac_phy_remove_ue: the slot is free and its statistics are cleared. */
  function Clean(s: Slot): (r: Slot)
    requires Valid(s)
    ensures Valid(r)
  {
    s.(rnti := 0, mode := NotSynched, consecutive := 0,
       procs := seq(PROCESSES, i requires 0 <= i < PROCESSES => CleanProcess(s.procs[i])))
  }

  // ----- Transmission of subframe t

  /** What MAC does in a subframe: remove the UE, grant an uplink block by DCI, answer
      a random access with a new RNTI (0: none); noAlloc: neither DCI nor random access
      response supplied the retransmission parameters of the PHICH process. */
  datatype TxInput = TxInput(remove: bool, grant: bool, rar: nat, noAlloc: bool)

  function CheckFailure(s: Slot, c: Config): (r: Slot) {
    if s.consecutive == c.errorLimit then s.(consecutive := 0) else s
  }

  /** generate_eNB_ulsch_params_from_rar, get_Msg3_alloc and the mode change. */
  function Respond(s: Slot, t: nat, rnti: nat): (r: Slot)
    requires Valid(s)
    ensures Valid(r)
  {
    if rnti == 0 || s.rnti != 0 then s
    else
      var when := Msg3After(Frame(t), Subframe(t), MSG3_FIRST);
      var pid := Msg3Pid(Frame(t), Subframe(t));
      var p := s.procs[pid];
      s.(rnti := rnti, mode := RaResponse, msg3Active := true, msg3Frame := when.0, msg3Subframe := when.1,
         procs := s.procs[pid := p.(round := if p.round == 0 then 0 else p.round + 1)])
  }

  /** A DCI in t grants the process of subframe t + 4. */
  function GrantBlock(s: Slot, t: nat, grant: bool): (r: Slot)
    requires Valid(s)
    ensures Valid(r)
  {
    var pid := (t + 4) % 8;
    if s.rnti > 0 && grant then s.(procs := s.procs[pid := s.procs[pid].(scheduled := true)]) else s
  }

  /** PHICH in t answers subframe t - 4, on the process of subframe t + 4. */
  function SendPhich(s: Slot, t: nat, noAlloc: bool): (r: Slot)
    requires Valid(s)
    ensures Valid(r)
  {
    var pid := (t + 4) % 8;
    var p := s.procs[pid];
    if s.rnti == 0 || !p.phich then s
    else
      var q :=
        if !noAlloc then p
        else if !p.phichAck then p.(scheduled := true)
        else p.(scheduled := false, round := 0);
      s.(procs := s.procs[pid := q.(phich := false)])
  }

  function Transmit(s: Slot, c: Config, t: nat, i: TxInput): (r: Slot)
    requires Valid(s)
    ensures Valid(r)
  {
    var s1 := CheckFailure(s, c);
    var s2 := if i.remove then Clean(s1) else s1;
    SendPhich(Respond(GrantBlock(s2, t, i.grant), t, i.rar), t, i.noAlloc)
  }

  // ----- Reception of subframe u

  /** decoded: the turbo decoder converged; keep: MAC did not reject the Msg3. */
  datatype RxInput = RxInput(decoded: bool, keep: bool)

  predicate Msg3Due(s: Slot, u: nat) {
    s.msg3Active && s.msg3Subframe == Subframe(u) && s.msg3Frame == Frame(u)
  }

  /** process_Msg3, called in mode RA_RESPONSE only. */
  function ExpectMsg3(s: Slot, u: nat): (r: Slot)
    requires Valid(s)
    ensures Valid(r)
  {
    if s.mode != RaResponse then s
    else if !Msg3Due(s, u) then s.(msg3Flag := false)
    else
      var pid := UplinkPid(Frame(u), Subframe(u));
      s.(msg3Active := false, msg3Flag := true, procs := s.procs[pid := s.procs[pid].(scheduled := true)])
  }

  predicate HasBlock(s: Slot, u: nat)
    requires Valid(s)
  {
    s.rnti > 0 && s.procs[UplinkPid(Frame(u), Subframe(u))].scheduled
  }

  /** A Msg3 that was not decoded: expected again, or the attempt is abandoned. */
  function Msg3Failed(s: Slot, c: Config, u: nat, round: nat): (r: Slot)
    requires Valid(s)
    ensures Valid(r)
  {
    if round == c.msg3Limit then Clean(s).(msg3Active := false)
    else
      var when := Msg3After(Frame(u), Subframe(u), MSG3_AGAIN);
      s.(msg3Active := true, msg3Frame := when.0, msg3Subframe := when.1)
  }

  function Failed(s: Slot, c: Config, u: nat): (r: Slot)
    requires Valid(s)
    ensures Valid(r)
  {
    FailedOn(s, c, u, UplinkPid(Frame(u), Subframe(u)))
  }

  /** The block of process pid was not decoded. */
  function FailedOn(s: Slot, c: Config, u: nat, pid: nat): (r: Slot)
    requires Valid(s) && pid < PROCESSES
    ensures Valid(r)
  {
    var p := s.procs[pid];
    var s1 := s.(procs := s.procs[pid := p.(scheduled := false, phich := true, phichAck := false, round := p.round + 1)]);
    if s.msg3Flag then Msg3Failed(s1, c, u, p.round + 1)
    else if p.round + 1 == c.blockLimit then
      s.(procs := s.procs[pid := p.(scheduled := false, phich := false, phichAck := false, round := 0, errors := p.errors + 1)],
         consecutive := s.consecutive + 1)
    else s1
  }

  /** A decoded Msg3 ends random access, in mode PUSCH even if MAC rejects it. */
  function Msg3Decoded(s: Slot, keep: bool): (r: Slot)
    requires Valid(s)
    ensures Valid(r)
  {
    var s1 := if keep then s else Clean(s).(msg3Active := false);
    s1.(mode := Pusch, msg3Flag := false, consecutive := 0,
        procs := seq(PROCESSES, i requires 0 <= i < PROCESSES => s1.procs[i].(errors := 0)))
  }

  function Decoded(s: Slot, u: nat, keep: bool): (r: Slot)
    requires Valid(s)
    ensures Valid(r)
  {
    var pid := UplinkPid(Frame(u), Subframe(u));
    var s1 := s.(consecutive := 0,
      procs := s.procs[pid := s.procs[pid].(scheduled := false, phich := true, phichAck := true, round := 0)]);
    if s.msg3Flag then Msg3Decoded(s1, keep) else s1
  }

  function Receive(s: Slot, c: Config, u: nat, i: RxInput): (r: Slot)
    requires Valid(s)
    ensures Valid(r)
  {
    var s1 := ExpectMsg3(s, u);
    if !HasBlock(s1, u) then s1
    else if i.decoded then Decoded(s1, u, i.keep)
    else Failed(s1, c, u)
  }

  /** The reception gives up a block: it failed its last round and was not a Msg3. */
  predicate GivesUp(s: Slot, c: Config, u: nat, i: RxInput)
    requires Valid(s)
  {
    var s1 := ExpectMsg3(s, u);
    HasBlock(s1, u) && !i.decoded && !s1.msg3Flag && s1.procs[UplinkPid(Frame(u), Subframe(u))].round + 1 == c.blockLimit
  }

  // ----- Steps and runs

  datatype Input = Input(tx: TxInput, rx: RxInput)

  /** Step u transmits subframe u + 2, then receives subframe u. */
  function Next(s: Slot, c: Config, u: nat, i: Input): (r: Slot)
    requires Valid(s)
    ensures Valid(r)
  {
    Receive(Transmit(s, c, u + LEAD, i.tx), c, u, i.rx)
  }

  function After(s: Slot, c: Config, u: nat, inputs: seq<Input>): (r: Slot)
    requires Valid(s)
    ensures Valid(r)
    decreases |inputs|
  {
    if inputs == [] then s else After(Next(s, c, u, inputs[0]), c, u + 1, inputs[1..])
  }

  // ----- What every run keeps

  /** A free slot has nothing scheduled and no rounds used; a PHICH that will signal
      success belongs to a process back in round 0. */
  predicate Quiet(p: Process) {
    p.round == 0 && !p.scheduled
  }

  predicate Kept(s: Slot, c: Config) {
    && Valid(s)
    && (s.rnti == 0 ==> s.consecutive == 0 && forall i :: 0 <= i < PROCESSES ==> Quiet(s.procs[i]))
    && (forall i :: 0 <= i < PROCESSES && s.procs[i].phich && s.procs[i].phichAck ==> s.procs[i].round == 0)
    && s.consecutive <= c.errorLimit
    && (s.mode == RaResponse ==> s.rnti > 0)
  }

  lemma CleanKept(s: Slot, c: Config)
    requires Valid(s)
    ensures Kept(Clean(s), c)
  {
  }

  lemma TransmitKept(s: Slot, c: Config, t: nat, i: TxInput)
    requires ConfigOk(c) && Kept(s, c)
    ensures Kept(Transmit(s, c, t, i), c) && Transmit(s, c, t, i).consecutive < c.errorLimit
  {
    var s1 := CheckFailure(s, c);
    var s2 := if i.remove then Clean(s1) else s1;
    if i.remove {
      CleanKept(s1, c);
    }
    var s3 := GrantBlock(s2, t, i.grant);
    GrantKept(s2, c, t, i.grant);
    RespondKept(s3, c, t, i.rar);
    PhichKept(Respond(s3, t, i.rar), c, t, i.noAlloc);
  }

  lemma GrantKept(s: Slot, c: Config, t: nat, grant: bool)
    requires Kept(s, c)
    ensures Kept(GrantBlock(s, t, grant), c) && GrantBlock(s, t, grant).consecutive == s.consecutive
  {
  }

  lemma RespondKept(s: Slot, c: Config, t: nat, rnti: nat)
    requires Kept(s, c)
    ensures Kept(Respond(s, t, rnti), c) && Respond(s, t, rnti).consecutive == s.consecutive
  {
    if rnti != 0 && s.rnti == 0 {
      var pid := Msg3Pid(Frame(t), Subframe(t));
      assert Quiet(s.procs[pid]);
      assert Respond(s, t, rnti).procs == s.procs;
    }
  }

  lemma PhichKept(s: Slot, c: Config, t: nat, noAlloc: bool)
    requires Kept(s, c)
    ensures Kept(SendPhich(s, t, noAlloc), c) && SendPhich(s, t, noAlloc).consecutive == s.consecutive
  {
  }

  lemma ReceiveKept(s: Slot, c: Config, u: nat, i: RxInput)
    requires ConfigOk(c) && Kept(s, c) && s.consecutive < c.errorLimit
    ensures Kept(Receive(s, c, u, i), c)
  {
    var s1 := ExpectMsg3(s, u);
    assert Kept(s1, c);
  }

  lemma StepKept(s: Slot, c: Config, u: nat, i: Input)
    requires ConfigOk(c) && Kept(s, c)
    ensures Kept(Next(s, c, u, i), c)
  {
    TransmitKept(s, c, u + LEAD, i.tx);
    ReceiveKept(Transmit(s, c, u + LEAD, i.tx), c, u, i.rx);
  }

  /** Every run keeps the slot in order; in particular the error counter never passes
      its limit and every transmission leaves it below. */
  lemma {:induction false} KeptRuns(s: Slot, c: Config, u: nat, inputs: seq<Input>)
    requires ConfigOk(c) && Kept(s, c)
    ensures Kept(After(s, c, u, inputs), c)
    decreases |inputs|
  {
    if inputs != [] {
      StepKept(s, c, u, inputs[0]);
      KeptRuns(Next(s, c, u, inputs[0]), c, u + 1, inputs[1..]);
    }
  }
}
