/** The downlink HARQ state of one UE as the code updates it in place.  Each method is
    proved against its function in DlHarq.
 */
module DlHarqUe {
  import opened FrameTiming
  import opened DlHarq

  class DownlinkUe {
    const config: Config
    const duplex: Duplex
    var procs: seq<Process>
    var harqIds: seq<nat>
    var sent: seq<bool>
    var firstNaks: nat
    var slide: nat
    var mcsOffset: int
    var firstSr: bool

    constructor (config: Config, duplex: Duplex)
      requires config.limit > 0
      ensures State() == Reset(config, true) && this.config == config && this.duplex == duplex
    {
      this.config, this.duplex := config, duplex;
      var s := Reset(config, true);
      procs, harqIds, sent := s.procs, s.harqIds, s.sent;
      firstNaks, slide, mcsOffset, firstSr := s.firstNaks, s.slide, s.mcsOffset, s.firstSr;
    }

    ghost function State(): Ue
      reads this
    {
      Ue(procs, harqIds, sent, firstNaks, slide, mcsOffset, firstSr)
    }

    ghost predicate Ok()
      reads this
    {
      Valid(State(), config)
    }

    method SendSubframe(sf: nat, g: Grant)
      requires Ok() && sf < 10 && GrantOk(g)
      modifies this
      ensures Ok() && State() == Transmit(old(State()), config, sf, g)
    {
      if g.Idle? {
        sent := sent[sf := false];
        return;
      }
      sent := sent[sf := true];
      harqIds := harqIds[sf := g.pid];
      var p := procs[g.pid];
      if p.round == 0 {
        p := p.(active := true);
      }
      slide := slide + 1;
      p := p.(trials := p.trials[p.round := p.trials[p.round] + 1]);
      procs := procs[g.pid := p];
    }

    /** The process found in entry sf receives ACK or NAK; then rate adaptation. */
    method CreditEntry(sf: nat, ack: bool)
      requires Ok() && sf < 10
      modifies this
      ensures Ok() && State() == Credit(old(State()), config, sf, ack)
    {
      if !sent[sf] {
        return;
      }
      var pid := harqIds[sf];
      if pid >= PROCESSES || !procs[pid].active {
        return;
      }
      var p := procs[pid];
      if !ack {
        if p.round == 0 {
          firstNaks := firstNaks + 1;
        }
        p := p.(naks := p.naks[p.round := p.naks[p.round] + 1]);
        if p.round + 1 == config.limit {
          p := p.(round := 0, l2Errors := p.l2Errors + 1, active := false);
          harqIds := harqIds[sf := PROCESSES];
        } else {
          p := p.(round := p.round + 1);
        }
      } else {
        p := p.(acks := p.acks[p.round := p.acks[p.round] + 1]);
        p := p.(round := 0, active := false);
        harqIds := harqIds[sf := PROCESSES];
      }
      procs := procs[pid := p];
      AdaptRate();
    }

    method AdaptRate()
      modifies this`mcsOffset, this`firstNaks, this`slide
      ensures mcsOffset == Adapted(old(mcsOffset), old(firstNaks), config, old(slide) == config.window)
      ensures firstNaks == (if old(slide) == config.window then 0 else old(firstNaks))
      ensures slide == (if old(slide) == config.window then 0 else old(slide))
    {
      if firstNaks > config.threshold {
        mcsOffset := if mcsOffset == 1 then 0 else -1;
      }
      if slide == config.window {
        if mcsOffset == 0 && firstNaks < 2 {
          mcsOffset := 1;
        }
        if mcsOffset == 1 && firstNaks > 2 {
          mcsOffset := 0;
        }
        if mcsOffset == 0 && firstNaks > 2 {
          mcsOffset := -1;
        }
        if mcsOffset == -1 && firstNaks < 2 {
          mcsOffset := 0;
        }
        firstNaks, slide := 0, 0;
      }
    }

    /** Transmissions in the acknowledged set, counted for feedback sent with a scheduling
        request. */
    method CountAllocated(sf: nat) returns (n: nat)
      requires Ok() && sf < 10 && forall m :: 0 <= m < AckCount(duplex, sf) ==> AckSource(duplex, sf, m) < 10
      ensures n == Allocated(State(), duplex, sf, AckCount(duplex, sf))
    {
      n := 0;
      for m := 0 to AckCount(duplex, sf)
        invariant n == Allocated(State(), duplex, sf, m)
      {
        if sent[AckSource(duplex, sf, m)] {
          n := n + 1;
        }
      }
    }

    /** process_HARQ_feedback: the loop over the acknowledged set. */
    method ProcessFeedback(sf: nat, sig: Signal)
      requires Ok() && sf < 10
      modifies this
      ensures Ok() && State() == Feedback(old(State()), config, duplex, sf, sig)
    {
      SourcesInTable(duplex, sf);
      ghost var was := State();
      var count := AckCount(duplex, sf);
      var allAcked := false;
      if sig.Pucch? && sig.sr && sig.sel != 2 {
        var nbAlloc := CountAllocated(sf);
        allAcked := nbAlloc == SignalledAcks(sig, count);
      }
      var taken := 0;
      for m := 0 to count
        invariant Ok() && State() == FeedbackUpTo(was, config, duplex, sf, sig, m)
        invariant taken == Allocated(was, duplex, sf, m)
      {
        var source := AckSource(duplex, sf, m);
        if sent[source] {
          CreditEntry(source, AckBit(duplex, sig, allAcked, taken));
          taken := taken + 1;
        }
      }
    }

    method DropOnFirstSr()
      requires Ok()
      modifies this
      ensures Ok() && State() == FirstSr(old(State()), config)
    {
      if firstSr {
        firstSr := false;
        procs := procs[0 := procs[0].(round := 0, active := false)];
      }
    }

    method ReceiveSubframe(u: nat, i: Input)
      requires Ok()
      modifies this
      ensures Ok() && State() == Receive(old(State()), config, duplex, u, i)
    {
      if i.sr {
        DropOnFirstSr();
      }
      ghost var was := State();
      for k := 0 to |i.signals|
        invariant Ok()
        invariant FeedbackAll(was, config, duplex, Subframe(u), i.signals)
               == FeedbackAll(State(), config, duplex, Subframe(u), i.signals[k..])
      {
        ProcessFeedback(Subframe(u), i.signals[k]);
        assert i.signals[k..][1..] == i.signals[k + 1..];
      }
    }

    /** One call of phy_procedures_eNB_lte, for this UE. */
    method Step(u: nat, i: Input)
      requires Ok() && GrantOk(i.grant)
      modifies this
      ensures Ok() && State() == Next(old(State()), config, duplex, u, i)
    {
      var sf := Subframe(u + LEAD);
      if Select(duplex, sf) == Downlink {
        SendSubframe(sf, i.grant);
      }
      if duplex == FDD || Select(duplex, Subframe(u)) == Uplink {
        ReceiveSubframe(u, i);
      }
      if Select(duplex, sf) == Special {
        SendSubframe(sf, i.grant);
      }
    }
  }
}
