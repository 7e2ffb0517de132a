/** The uplink slot as the code updates it in place, each method proved against its
    function in UlSlot.
 */
module UlSlotUe {
  import opened FrameTiming
  import opened UlSlot

  class UplinkUe {
    const config: Config
    var rnti: nat
    var mode: Mode
    var msg3Active: bool
    var msg3Frame: nat
    var msg3Subframe: nat
    var msg3Flag: bool
    var procs: seq<Process>
    var consecutive: nat

    constructor (config: Config)
      ensures Valid(State()) && Kept(State(), config) && rnti == 0 && this.config == config
    {
      this.config := config;
      rnti, mode, consecutive := 0, NotSynched, 0;
      msg3Active, msg3Frame, msg3Subframe, msg3Flag := false, 0, 0, false;
      procs := seq(PROCESSES, i => Process(0, false, false, false, 0));
    }

    ghost function State(): Slot
      reads this
    {
      Slot(rnti, mode, msg3Active, msg3Frame, msg3Subframe, msg3Flag, procs, consecutive)
    }

    /** mac_phy_remove_ue and clean_eNb_ulsch. */
    method RemoveUe()
      requires Valid(State())
      modifies this
      ensures State() == Clean(old(State()))
    {
      rnti, mode, consecutive := 0, NotSynched, 0;
      for k := 0 to PROCESSES
        invariant |procs| == PROCESSES
        invariant forall i :: 0 <= i < k ==> procs[i] == CleanProcess(old(procs)[i])
        invariant forall i :: k <= i < PROCESSES ==> procs[i] == old(procs)[i]
        invariant State() == Clean(old(State())).(procs := procs)
      {
        procs := procs[k := Process(0, false, procs[k].phich, false, 0)];
      }
    }

    /** The part of phy_procedures_eNB_TX that concerns this slot's uplink. */
    method TransmitSubframe(t: nat, i: TxInput) returns (failure: bool)
      requires Valid(State())
      modifies this
      ensures State() == Transmit(old(State()), config, t, i)
      ensures failure <==> old(consecutive) == config.errorLimit
    {
      failure := consecutive == config.errorLimit;
      if failure {
        consecutive := 0;
      }
      if i.remove {
        RemoveUe();
      }
      var pid := (t + 4) % 8;
      if rnti > 0 && i.grant {
        procs := procs[pid := procs[pid].(scheduled := true)];
      }
      if i.rar != 0 && rnti == 0 {
        AddUe(t, i.rar);
      }
      SendHi(t, i.noAlloc);
    }

    method AddUe(t: nat, newRnti: nat)
      requires Valid(State()) && rnti == 0 && newRnti != 0
      modifies this
      ensures State() == Respond(old(State()), t, newRnti)
    {
      rnti, mode := newRnti, RaResponse;
      var pid := Msg3Pid(Frame(t), Subframe(t));
      if procs[pid].round != 0 {
        procs := procs[pid := procs[pid].(round := procs[pid].round + 1)];
      }
      msg3Active := true;
      var when := Msg3After(Frame(t), Subframe(t), MSG3_FIRST);
      msg3Frame, msg3Subframe := when.0, when.1;
    }

    /** generate_phich_top for this slot. */
    method SendHi(t: nat, noAlloc: bool)
      requires Valid(State())
      modifies this`procs
      ensures State() == SendPhich(old(State()), t, noAlloc)
    {
      var pid := (t + 4) % 8;
      if rnti > 0 && procs[pid].phich {
        var p := procs[pid];
        if noAlloc {
          if !p.phichAck {
            p := p.(scheduled := true);
          } else {
            p := p.(scheduled := false, round := 0);
          }
        }
        procs := procs[pid := p.(phich := false)];
      }
    }

    /** process_Msg3. */
    method ProcessMsg3(u: nat)
      requires Valid(State()) && mode == RaResponse
      modifies this
      ensures State() == ExpectMsg3(old(State()), u)
    {
      msg3Flag := false;
      if msg3Active && msg3Subframe == Subframe(u) && msg3Frame == Frame(u) {
        var pid := UplinkPid(Frame(u), Subframe(u));
        msg3Active, msg3Flag := false, true;
        procs := procs[pid := procs[pid].(scheduled := true)];
      }
    }

    /** A Msg3 in error: abandoned in its last round, otherwise expected again. */
    method RetryMsg3(u: nat, round: nat)
      requires Valid(State())
      modifies this
      ensures State() == Msg3Failed(old(State()), config, u, round)
    {
      if round == config.msg3Limit {
        mode := Prach;
        RemoveUe();
        msg3Active := false;
      } else {
        msg3Active := true;
        var when := Msg3After(Frame(u), Subframe(u), MSG3_AGAIN);
        msg3Frame, msg3Subframe := when.0, when.1;
      }
    }

    /** ULSCH in error; errorSdu tells whether MAC gets an error indication. */
    method UlschError(u: nat) returns (errorSdu: bool)
      requires Valid(State())
      modifies this
      ensures State() == Failed(old(State()), config, u)
      ensures errorSdu <==> !old(msg3Flag) && old(procs)[UplinkPid(Frame(u), Subframe(u))].round + 1 == config.blockLimit
    {
      errorSdu := BlockError(u, UplinkPid(Frame(u), Subframe(u)));
    }

    method BlockError(u: nat, pid: nat) returns (errorSdu: bool)
      requires Valid(State()) && pid < PROCESSES
      modifies this
      ensures State() == FailedOn(old(State()), config, u, pid)
      ensures errorSdu <==> !old(msg3Flag) && old(procs)[pid].round + 1 == config.blockLimit
    {
      errorSdu := false;
      var p := procs[pid].(scheduled := false, phich := true, phichAck := false, round := procs[pid].round + 1);
      procs := procs[pid := p];
      if msg3Flag {
        RetryMsg3(u, p.round);
      } else if p.round == config.blockLimit {
        procs := procs[pid := p.(round := 0, phich := false, errors := p.errors + 1)];
        consecutive := consecutive + 1;
        errorSdu := true;
      }
    }

    /** ULSCH received. */
    method UlschOk(u: nat, keep: bool)
      requires Valid(State())
      modifies this
      ensures State() == Decoded(old(State()), u, keep)
    {
      var pid := UplinkPid(Frame(u), Subframe(u));
      procs := procs[pid := procs[pid].(scheduled := false, phich := true, phichAck := true, round := 0)];
      consecutive := 0;
      if msg3Flag {
        if !keep {
          mode := Prach;
          RemoveUe();
          msg3Active := false;
        }
        mode, msg3Flag := Pusch, false;
        ClearErrors();
      }
    }

    method ClearErrors()
      requires Valid(State())
      modifies this`procs, this`consecutive
      ensures consecutive == 0
      ensures |procs| == PROCESSES && forall i :: 0 <= i < PROCESSES ==> procs[i] == old(procs)[i].(errors := 0)
    {
      for k := 0 to PROCESSES
        invariant |procs| == PROCESSES
        invariant forall i :: 0 <= i < k ==> procs[i] == old(procs)[i].(errors := 0)
        invariant forall i :: k <= i < PROCESSES ==> procs[i] == old(procs)[i]
        invariant k > 0 ==> consecutive == 0
      {
        procs := procs[k := procs[k].(errors := 0)];
        consecutive := 0;
      }
    }

    method ReceiveSubframe(u: nat, i: RxInput) returns (errorSdu: bool)
      requires Valid(State())
      modifies this
      ensures State() == Receive(old(State()), config, u, i)
      ensures errorSdu <==> GivesUp(old(State()), config, u, i)
    {
      errorSdu := false;
      if mode == RaResponse {
        ProcessMsg3(u);
      }
      if rnti > 0 && procs[UplinkPid(Frame(u), Subframe(u))].scheduled {
        if i.decoded {
          UlschOk(u, i.keep);
        } else {
          errorSdu := UlschError(u);
        }
      }
    }

    /** One call of phy_procedures_eNB_lte, for this slot. */
    method Step(u: nat, i: Input) returns (failure: bool, errorSdu: bool)
      requires Valid(State())
      modifies this
      ensures State() == Next(old(State()), config, u, i)
      ensures failure <==> old(consecutive) == config.errorLimit
      ensures errorSdu <==> GivesUp(Transmit(old(State()), config, u + LEAD, i.tx), config, u, i.rx)
    {
      failure := TransmitSubframe(u + LEAD, i.tx);
      errorSdu := ReceiveSubframe(u, i.rx);
    }
  }
}
