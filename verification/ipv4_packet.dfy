/**
  Packets as objects that carry their verdict (src/common/src/IPv4.cpp), and the
  part of the netfilter handler that answers the kernel and counts its answers
  (src/netfilter/src/PacketHandler.cpp).
*/
module IPv4Packets {
  import opened Packets

  const NF_DROP := 0
  const NF_ACCEPT := 1
  const NF_MAX_VERDICT := 5

  /** An answer to the kernel. */
  datatype Answer = Answer(id: nat, verdict: nat)

  function Times(answers: seq<Answer>, verdict: nat): nat {
    if answers == [] then 0
    else Times(answers[..|answers| - 1], verdict) + if answers[|answers| - 1].verdict == verdict then 1 else 0
  }

  /** How often each verdict was given. */
  function Tally(answers: seq<Answer>): (t: seq<nat>)
    ensures |t| == NF_MAX_VERDICT
  {
    seq(NF_MAX_VERDICT, v requires v >= 0 => Times(answers, v))
  }

  function Total(counts: seq<nat>): nat {
    if counts == [] then 0 else Total(counts[..|counts| - 1]) + counts[|counts| - 1]
  }

  lemma TallyOneMore(answers: seq<Answer>, a: Answer)
    requires a.verdict < NF_MAX_VERDICT
    ensures var t := Tally(answers); Tally(answers + [a]) == t[a.verdict := t[a.verdict] + 1]
  {
    assert (answers + [a])[..|answers|] == answers;
  }

  lemma {:induction false} TotalOfTally(answers: seq<Answer>)
    requires forall i :: 0 <= i < |answers| ==> answers[i].verdict < NF_MAX_VERDICT
    ensures Total(Tally(answers)) == |answers|
  {
    if answers == [] {
      TotalOfZeros(Tally(answers));
    } else {
      var n := |answers| - 1;
      TotalOfTally(answers[..n]);
      assert answers[..n] + [answers[n]] == answers;
      TallyOneMore(answers[..n], answers[n]);
      TotalOneMore(Tally(answers[..n]), answers[n].verdict);
    }
  }

  lemma {:induction false} TotalOfZeros(counts: seq<nat>)
    requires forall i :: 0 <= i < |counts| ==> counts[i] == 0
    ensures Total(counts) == 0
  {
    if counts != [] {
      TotalOfZeros(counts[..|counts| - 1]);
    }
  }

  lemma {:induction false} TotalOneMore(counts: seq<nat>, v: nat)
    requires v < |counts|
    ensures Total(counts[v := counts[v] + 1]) == Total(counts) + 1
  {
    var n := |counts| - 1;
    if v < n {
      TotalOneMore(counts[..n], v);
      assert counts[v := counts[v] + 1][..n] == counts[..n][v := counts[v] + 1];
    } else {
      assert counts[v := counts[v] + 1][..n] == counts[..n];
    }
  }

  /** What comes of setting a verdict: an answer; a refusal, above the highest verdict; or, for the highest
      itself, a write past the end of the statistics, after which nothing can be said. */
  datatype Outcome = Answered | Refused | Overrun

  class VerdictSetter {
    const verdictAfterClassification: bool
    var verdictStats: seq<nat>
    var answers: seq<Answer>

    ghost predicate Valid()
      reads this
    {
      && verdictStats == Tally(answers)
      && forall i :: 0 <= i < |answers| ==> answers[i].verdict < NF_MAX_VERDICT
    }

    constructor (verdictAfterClassification: bool)
      ensures Valid() && answers == [] && this.verdictAfterClassification == verdictAfterClassification
    {
      this.verdictAfterClassification := verdictAfterClassification;
      verdictStats := seq(NF_MAX_VERDICT, _ => 0);
      answers := [];
    }

    method SetVerdict(id: nat, verdict: nat) returns (outcome: Outcome)
      requires Valid()
      modifies this
      ensures Valid()
      ensures outcome == if verdict > NF_MAX_VERDICT then Refused else if verdict == NF_MAX_VERDICT then Overrun else Answered
      ensures answers == if outcome.Answered? then old(answers) + [Answer(id, verdict)] else old(answers)
    {
      if verdict > NF_MAX_VERDICT || verdict < NF_DROP {
        return Refused;
      }
      if verdict >= |verdictStats| {
        return Overrun;
      }
      TallyOneMore(answers, Answer(id, verdict));
      verdictStats := verdictStats[verdict := verdictStats[verdict] + 1];
      answers := answers + [Answer(id, verdict)];
      outcome := Answered;
    }

    /** The answer that a packet's verdict brings about, if the verdict is up to the packet at all. */
    function Passed(id: nat, verdict: nat): seq<Answer> {
      if verdictAfterClassification then [Answer(id, verdict)] else []
    }

    method SetAccept(id: nat)
      requires Valid()
      modifies this
      ensures Valid() && answers == old(answers) + Passed(id, NF_ACCEPT)
    {
      if verdictAfterClassification {
        var _ := SetVerdict(id, NF_ACCEPT);
      }
    }

    method SetDrop(id: nat)
      requires Valid()
      modifies this
      ensures Valid() && answers == old(answers) + Passed(id, NF_DROP)
    {
      if verdictAfterClassification {
        var _ := SetVerdict(id, NF_DROP);
      }
    }
  }

  /** A packet, and whom to tell its verdict: nobody, once somebody has been told. */
  class IPv4Packet {
    const data: Packet
    var verdictSetter: VerdictSetter?
    // whom the packet answers to, and what verdicts it has passed on
    ghost const answersTo: VerdictSetter?
    ghost var told: seq<nat>

    /** The packet has no verdict yet. */
    ghost predicate Pending()
      reads this
    {
      verdictSetter == answersTo && told == []
    }

    /** It never passes on more than one verdict. */
    ghost predicate Valid()
      reads this, answersTo
    {
      && (answersTo != null ==> answersTo.Valid())
      && (Pending() || (verdictSetter == null && |told| == if answersTo == null then 0 else 1))
    }

    lemma AnswersToItsSetter()
      requires Valid()
      ensures verdictSetter != null ==> verdictSetter == answersTo
    {
    }

    constructor (data: Packet, verdictSetter: VerdictSetter?)
      requires verdictSetter != null ==> verdictSetter.Valid()
      ensures Valid() && Pending() && this.data == data && answersTo == verdictSetter
    {
      this.data, this.verdictSetter, this.answersTo, this.told := data, verdictSetter, verdictSetter, [];
    }

    /** Since then, `verdict` was passed on if the packet had none, and nothing was otherwise. */
    twostate predicate Gave(verdict: nat)
      reads this, answersTo
    {
      && verdictSetter == null
      && told == old(told) + (if old(verdictSetter) != null then [verdict] else [])
      && (answersTo != null ==>
            answersTo.answers == old(answersTo.answers) + if old(verdictSetter) != null then answersTo.Passed(data.id, verdict) else [])
    }

    /** Since then, nothing has happened to the packet, or to what it answers to. */
    twostate predicate Silent()
      reads this, answersTo
    {
      && verdictSetter == old(verdictSetter) && told == old(told)
      && (answersTo != null ==> answersTo.answers == old(answersTo.answers) && answersTo.verdictStats == old(answersTo.verdictStats))
    }

    method AcceptPkt()
      requires Valid()
      modifies this, verdictSetter
      ensures Valid() && Gave(NF_ACCEPT)
    {
      if verdictSetter != null {
        verdictSetter.SetAccept(data.id);
        told := told + [NF_ACCEPT];
        verdictSetter := null;
      }
    }

    method DropPkt()
      requires Valid()
      modifies this, verdictSetter
      ensures Valid() && Gave(NF_DROP)
    {
      if verdictSetter != null {
        verdictSetter.SetDrop(data.id);
        told := told + [NF_DROP];
        verdictSetter := null;
      }
    }

    /** The default verdict is to accept. */
    method SetVerdict()
      requires Valid()
      modifies this, verdictSetter
      ensures Valid() && Gave(NF_ACCEPT)
    {
      AcceptPkt();
    }

    /** The destructor: a packet that goes without a verdict is dropped. */
    method Destroy()
      requires Valid()
      modifies this, verdictSetter
      ensures Valid() && Gave(NF_DROP)
    {
      if verdictSetter != null {
        verdictSetter.SetDrop(data.id);
        told := told + [NF_DROP];
        verdictSetter := null;
      }
    }
  }
}
