/**
  Choosing among the targets of an out-port.  Whatever the mixture of labelled, ticketed and
  default writes, the default choices go round over all targets, the choices for each label go
  round over exactly the targets that carry it, and a ticket disturbs neither.
*/
module Outports {

  type Label = string

  datatype Request = Labelled(l: Label) | Ticket(i: int) | Default

  datatype Policy = RoundRobin | Random

  /** The cursors; labels and targets do not change once the port is set up. */
  datatype Cursors = Cursors(next: nat, at: map<Label, nat>)

  /** The positions, in increasing order, of the targets that carry a label. */
  function TargetsOf(labels: seq<seq<Label>>, l: Label): (ts: seq<nat>)
    ensures forall i :: i in ts <==> 0 <= i < |labels| && l in labels[i]
    ensures forall j, k :: 0 <= j < k < |ts| ==> ts[j] < ts[k]
  {
    if labels == [] then []
    else
      var k := |labels| - 1;
      var ts := TargetsOf(labels[..k], l);
      assert forall j :: 0 <= j < |ts| ==> ts[j] in ts;
      if l in labels[k] then ts + [k] else ts
  }

  function At(c: Cursors, l: Label): nat { if l in c.at then c.at[l] else 0 }

  /** The next position in a ring of n. */
  function Turn(k: nat, n: nat): nat { if k + 1 == n then 0 else k + 1 }

  /** A request that the code does not answer by ending the program. */
  predicate Answerable(labels: seq<seq<Label>>, r: Request) {
    match r
    case Labelled(l) => TargetsOf(labels, l) != []
    case Ticket(i) => 0 <= i < |labels|
    case Default => |labels| > 0
  }

  predicate InRange(labels: seq<seq<Label>>, c: Cursors) {
    && (|labels| > 0 ==> c.next < |labels|)
    && forall l :: l in c.at ==> TargetsOf(labels, l) != [] && c.at[l] < |TargetsOf(labels, l)|
  }

  function Choice(labels: seq<seq<Label>>, c: Cursors, r: Request): nat
    requires Answerable(labels, r) && InRange(labels, c)
  {
    match r
    case Labelled(l) => TargetsOf(labels, l)[At(c, l)]
    case Ticket(i) => i
    case Default => c.next
  }

  function Moved(labels: seq<seq<Label>>, c: Cursors, r: Request): Cursors
    requires Answerable(labels, r)
  {
    match r
    case Labelled(l) => c.(at := c.at[l := Turn(At(c, l), |TargetsOf(labels, l)|)])
    case Ticket(i) => c
    case Default => c.(next := Turn(c.next, |labels|))
  }

  lemma {:induction false} MovedInRange(labels: seq<seq<Label>>, c: Cursors, r: Request)
    requires InRange(labels, c) && Answerable(labels, r)
    ensures InRange(labels, Moved(labels, c, r))
  {
  }

  // ---------------------------------------------------------------------------
  // Histories
  // ---------------------------------------------------------------------------

  const Start := Cursors(0, map[])

  predicate AllAnswerable(labels: seq<seq<Label>>, h: seq<Request>) {
    forall k :: 0 <= k < |h| ==> Answerable(labels, h[k])
  }

  function After(labels: seq<seq<Label>>, h: seq<Request>): (c: Cursors)
    requires AllAnswerable(labels, h)
    ensures InRange(labels, c)
  {
    if h == [] then Start else Moved(labels, After(labels, h[..|h| - 1]), h[|h| - 1])
  }

  /** How often requests of the kind of r have chosen target t. */
  function Count(labels: seq<seq<Label>>, h: seq<Request>, r: Request, t: nat): nat
    requires AllAnswerable(labels, h)
  {
    if h == [] then 0
    else
      var k := |h| - 1;
      Count(labels, h[..k], r, t)
      + if h[k] == r && Choice(labels, After(labels, h[..k]), r) == t then 1 else 0
  }

  /** How often the default, or a label, has come round to its first target again. */
  function Rounds(labels: seq<seq<Label>>, h: seq<Request>, r: Request): nat
    requires AllAnswerable(labels, h)
  {
    if h == [] then 0
    else
      var k := |h| - 1;
      var c := After(labels, h[..k]);
      Rounds(labels, h[..k], r)
      + match r
        case Default => if h[k] == r && c.next + 1 == |labels| then 1 else 0
        case Labelled(l) => if h[k] == r && At(c, l) + 1 == |TargetsOf(labels, l)| then 1 else 0
        case Ticket(_) => 0
  }

  /** The default choices: every target as often as full rounds, and once more before the cursor. */
  lemma {:induction false} DefaultCounts(labels: seq<seq<Label>>, h: seq<Request>, t: nat)
    requires AllAnswerable(labels, h) && t < |labels|
    ensures Count(labels, h, Default, t)
         == Rounds(labels, h, Default) + if t < After(labels, h).next then 1 else 0
  {
    if h != [] {
      DefaultCounts(labels, h[..|h| - 1], t);
    }
  }

  lemma {:induction false} LabelCounts(labels: seq<seq<Label>>, h: seq<Request>, l: Label, j: nat)
    requires AllAnswerable(labels, h) && j < |TargetsOf(labels, l)|
    ensures Count(labels, h, Labelled(l), TargetsOf(labels, l)[j])
         == Rounds(labels, h, Labelled(l)) + if j < At(After(labels, h), l) then 1 else 0
  {
    if h != [] {
      LabelCounts(labels, h[..|h| - 1], l, j);
    }
  }

  /** In every history the default choices of two targets differ by at most one. */
  lemma {:induction false} DefaultIsFair(labels: seq<seq<Label>>, h: seq<Request>, t: nat, u: nat)
    requires AllAnswerable(labels, h) && t < |labels| && u < |labels|
    ensures -1 <= Count(labels, h, Default, t) - Count(labels, h, Default, u) <= 1
  {
    DefaultCounts(labels, h, t);
    DefaultCounts(labels, h, u);
  }

  /** The choices for a label are fair among its targets, and no other target is ever chosen. */
  lemma {:induction false} LabelIsFair(labels: seq<seq<Label>>, h: seq<Request>, l: Label, t: nat, u: nat)
    requires AllAnswerable(labels, h) && t < |labels| && u < |labels| && l in labels[t] && l in labels[u]
    ensures -1 <= Count(labels, h, Labelled(l), t) - Count(labels, h, Labelled(l), u) <= 1
  {
    var ts := TargetsOf(labels, l);
    assert t in ts && u in ts;
    var i :| 0 <= i < |ts| && ts[i] == t;
    var j :| 0 <= j < |ts| && ts[j] == u;
    LabelCounts(labels, h, l, i);
    LabelCounts(labels, h, l, j);
  }

  lemma {:induction false} LabelIsKept(labels: seq<seq<Label>>, h: seq<Request>, l: Label, t: nat)
    requires AllAnswerable(labels, h) && Count(labels, h, Labelled(l), t) > 0
    ensures t < |labels| && l in labels[t]
  {
    var k := |h| - 1;
    if Count(labels, h[..k], Labelled(l), t) > 0 {
      LabelIsKept(labels, h[..k], l, t);
    } else {
      assert t in TargetsOf(labels, l);
    }
  }

  /** Requests of the kind of r in a history. */
  function Only(h: seq<Request>, r: Request): seq<Request> {
    if h == [] then [] else Only(h[..|h| - 1], r) + if h[|h| - 1] == r then [r] else []
  }

  lemma {:induction false} OnlyAnswerable(labels: seq<seq<Label>>, h: seq<Request>, r: Request)
    requires AllAnswerable(labels, h)
    ensures AllAnswerable(labels, Only(h, r))
  {
    if h != [] {
      OnlyAnswerable(labels, h[..|h| - 1], r);
    }
  }

  /**
    Requests of one kind are answered as if there were no others: tickets, other labels and default
    writes in between change nothing.
  */
  lemma {:induction false} OthersDoNotDisturb(labels: seq<seq<Label>>, h: seq<Request>, r: Request)
    requires AllAnswerable(labels, h) && !r.Ticket?
    ensures AllAnswerable(labels, Only(h, r))
    ensures var alone, mixed := After(labels, Only(h, r)), After(labels, h);
            if r.Default? then mixed.next == alone.next else At(mixed, r.l) == At(alone, r.l)
    ensures Answerable(labels, r) ==>
              Choice(labels, After(labels, h), r) == Choice(labels, After(labels, Only(h, r)), r)
  {
    OnlyAnswerable(labels, h, r);
    if h != [] {
      var k := |h| - 1;
      OthersDoNotDisturb(labels, h[..k], r);
      if h[k] == r {
        assert Only(h, r)[..|Only(h, r)| - 1] == Only(h[..k], r);
      } else {
        assert Only(h, r) == Only(h[..k], r);
      }
    }
  }

  // ---------------------------------------------------------------------------
  // The code
  // ---------------------------------------------------------------------------

  class MultiOutportManager {
    const labels: seq<seq<Label>>               // runtime labels of the targets, after shuffling
    const policy: Policy
    var labelToTargets: map<Label, seq<nat>>    // label_to_targets
    var labelPos: map<Label, nat>               // label_to_targets_pos
    var rrNextVictim: nat
    var lastChosen: int
    ghost var history: seq<Request>             // the requests answered so far

    ghost predicate Valid()
      reads this
    {
      && Settled()
      && AllAnswerable(labels, history)
      && SameLabels(State(), After(labels, history))
      && (policy.RoundRobin? ==> rrNextVictim == After(labels, history).next)
    }

    /** The tables are complete and the cursors within them. */
    ghost predicate Settled()
      reads this
    {
      && Collected(labels, labelToTargets)
      && labelPos.Keys == labelToTargets.Keys
      && InRange(labels, State())
    }

    ghost function State(): Cursors
      reads this
    {
      Cursors(rrNextVictim, labelPos)
    }

    constructor (labels: seq<seq<Label>>, policy: Policy)
      ensures this.labels == labels && this.policy == policy && rrNextVictim == 0
      ensures labelToTargets == map[] && labelPos == map[] && history == []
    {
      this.labels, this.policy := labels, policy;
      labelToTargets, labelPos, rrNextVictim, lastChosen := map[], map[], 0, -1;
      history := [];
    }

    /** `note_final_target`: collect the targets of every label and put its cursor on the first. */
    method NoteFinalTarget()
      requires labelToTargets == map[] && labelPos == map[] && rrNextVictim == 0 && history == []
      modifies this`labelToTargets, this`labelPos
      ensures Valid() && forall l :: At(State(), l) == 0
    {
      var i := 0;
      while i < |labels|
        invariant 0 <= i <= |labels| && Collected(labels[..i], labelToTargets)
      {
        NoteTarget(i);
        i := i + 1;
      }
      assert labels[..i] == labels;
      labelPos := map l | l in labelToTargets :: 0;
    }

    /** The labels of one target; a label may be repeated. */
    method NoteTarget(i: nat)
      requires i < |labels| && Collected(labels[..i], labelToTargets)
      modifies this`labelToTargets
      ensures Collected(labels[..i + 1], labelToTargets)
    {
      ghost var before := labelToTargets;
      var u := 0;
      while u < |labels[i]|
        invariant 0 <= u <= |labels[i]|
        invariant Noting(labels[..i], labels[i][..u], i, labelToTargets)
      {
        var l := labels[i][u];
        NotingMore(labels[..i], labels[i][..u], i, labelToTargets, l);
        if l !in labelToTargets {
          labelToTargets := labelToTargets[l := []];
        }
        labelToTargets := labelToTargets[l := Insert(labelToTargets[l], i)];
        assert labels[i][..u + 1] == labels[i][..u] + [l];
        u := u + 1;
      }
      assert labels[i][..u] == labels[i] && labels[..i + 1] == labels[..i] + [labels[i]];
      NotingAll(labels[..i], labels[i], labelToTargets);
    }

    /** The labelled branch of `select_target`. */
    method SelectLabelled(tag: Label) returns (ok: bool)
      requires Settled()
      modifies this`labelPos, this`lastChosen
      ensures Settled() && ok == (TargetsOf(labels, tag) != [])
      ensures ok ==> lastChosen == TargetsOf(labels, tag)[old(At(State(), tag))]
      ensures ok ==> State() == Moved(labels, old(State()), Labelled(tag))
      ensures !ok ==> State() == old(State()) && lastChosen == old(lastChosen)
    {
      if tag !in labelToTargets {
        return false;
      }
      ghost var before := State();
      assert before.at == labelPos && labelToTargets[tag] == TargetsOf(labels, tag);
      MovedInRange(labels, before, Labelled(tag));
      lastChosen := labelToTargets[tag][labelPos[tag]];
      var pos := labelPos[tag] + 1;
      if pos == |labelToTargets[tag]| {
        pos := 0;
      }
      assert pos == Turn(At(before, tag), |TargetsOf(labels, tag)|);
      labelPos := labelPos[tag := pos];
      assert labelPos.Keys == old(labelPos.Keys);
      return true;
    }

    /** The branches without a label. */
    method SelectUnlabelled(ticket: int, rnd: nat) returns (ok: bool)
      requires Settled() && |labels| > 0
      modifies this`rrNextVictim, this`lastChosen
      ensures Settled() && ok == (ticket == -1 || 0 <= ticket < |labels|)
      ensures ok && ticket != -1 ==> lastChosen == ticket
      ensures ok && ticket == -1 ==> lastChosen == if policy.RoundRobin? then old(rrNextVictim) else rnd % |labels|
      ensures rrNextVictim == if ticket == -1 && policy.RoundRobin? then Turn(old(rrNextVictim), |labels|)
                              else old(rrNextVictim)
      ensures !ok ==> lastChosen == old(lastChosen)
      ensures labelPos == old(labelPos) && labelToTargets == old(labelToTargets)
    {
      if ticket != -1 {
        if ticket < 0 || ticket >= |labels| {
          return false;
        }
        lastChosen := ticket;
      } else if |labels| == 1 {
        lastChosen := 0;
      } else if policy == RoundRobin {
        lastChosen := rrNextVictim;
        rrNextVictim := rrNextVictim + 1;
        if rrNextVictim == |labels| {
          rrNextVictim := 0;
        }
      } else {
        lastChosen := rnd % |labels|;
      }
      return true;
    }

    /**
      `select_target`; false where the program would end.  `rnd` is the random number.  Whatever the
      policy, labels and tickets are answered as the history so far prescribes, which the lemmas
      above are about; so are default requests under round robin.
    */
    method SelectTarget(tag: Label, ticket: int, rnd: nat) returns (ok: bool)
      requires Valid() && |labels| > 0
      modifies this
      ensures Valid() && (ok <==> Answerable(labels, RequestOf(tag, ticket)))
      ensures history == if ok then old(history) + [RequestOf(tag, ticket)] else old(history)
      ensures ok ==> var r := RequestOf(tag, ticket);
                     lastChosen == if r.Default? && policy.Random? then rnd % |labels|
                                   else Choice(labels, After(labels, old(history)), r)
      ensures !ok ==> State() == old(State()) && lastChosen == old(lastChosen)
      ensures labelToTargets == old(labelToTargets)
    {
      if tag != "" {
        ok := SelectLabelled(tag);
        if ok {
          Note(Labelled(tag), old(State()));
        }
      } else {
        ok := SelectUnlabelled(ticket, rnd);
        if ok {
          Note(RequestOf(tag, ticket), old(State()));
        }
      }
    }

    /** The request that has just been answered is part of the history. */
    ghost method Note(r: Request, before: Cursors)
      requires Settled() && AllAnswerable(labels, history) && Answerable(labels, r) && InRange(labels, before)
      requires SameLabels(before, After(labels, history))
      requires policy.RoundRobin? ==> before.next == After(labels, history).next
      requires labelPos == (if r.Labelled? then Moved(labels, before, r).at else before.at)
      requires policy.RoundRobin? ==> rrNextVictim == Moved(labels, before, r).next
      modifies this`history
      ensures Valid() && history == old(history) + [r]
      ensures !r.Default? || policy.RoundRobin? ==>
                Choice(labels, before, r) == Choice(labels, After(labels, old(history)), r)
    {
      Extend(labels, history, r);
      SameMoves(labels, before, After(labels, history), r);
      history := history + [r];
    }
  }

  lemma {:induction false} Extend(labels: seq<seq<Label>>, h: seq<Request>, r: Request)
    requires AllAnswerable(labels, h) && Answerable(labels, r)
    ensures AllAnswerable(labels, h + [r])
    ensures After(labels, h + [r]) == Moved(labels, After(labels, h), r)
  {
    assert (h + [r])[..|h|] == h;
  }

  /** Cursors that differ only in what has not been used yet lead to the same choices. */
  lemma {:induction false} SameMoves(labels: seq<seq<Label>>, c: Cursors, d: Cursors, r: Request)
    requires SameLabels(c, d) && InRange(labels, c) && InRange(labels, d) && Answerable(labels, r)
    ensures !r.Default? || c.next == d.next ==> Choice(labels, c, r) == Choice(labels, d, r)
    ensures SameLabels(Moved(labels, c, r), Moved(labels, d, r))
    ensures r.Default? ==> SameLabels(c, Moved(labels, d, r))
  {
    if r.Labelled? {
      assert At(c, r.l) == At(d, r.l);
    }
    forall l
      ensures At(Moved(labels, c, r), l) == At(Moved(labels, d, r), l)
      ensures r.Default? ==> At(c, l) == At(Moved(labels, d, r), l)
    {
      assert At(c, l) == At(d, l);
    }
  }

  function RequestOf(tag: Label, ticket: int): Request {
    if tag != "" then Labelled(tag) else if ticket != -1 then Ticket(ticket) else Default
  }

  /** A cursor that has not been used yet is at zero. */
  ghost predicate SameLabels(c: Cursors, d: Cursors) {
    forall l :: At(c, l) == At(d, l)
  }

  /** Insertion into the set of positions, which is noted in increasing order. */
  function Insert(ts: seq<nat>, i: nat): seq<nat> {
    if ts != [] && ts[|ts| - 1] == i then ts else ts + [i]
  }

  ghost predicate Collected(labels: seq<seq<Label>>, m: map<Label, seq<nat>>) {
    && (forall l :: l in m <==> TargetsOf(labels, l) != [])
    && (forall l :: l in m ==> m[l] == TargetsOf(labels, l))
  }

  /** While target i is being noted, with some of its labels done. */
  ghost predicate Noting(labels: seq<seq<Label>>, noted: seq<Label>, i: nat, m: map<Label, seq<nat>>) {
    && i == |labels|
    && (forall l :: l in m <==> TargetsOf(labels, l) != [] || l in noted)
    && (forall l :: l in m ==> m[l] == TargetsOf(labels, l) + if l in noted then [i] else [])
  }

  lemma {:induction false} NotingMore(labels: seq<seq<Label>>, noted: seq<Label>, i: nat, m: map<Label, seq<nat>>, l: Label)
    requires Noting(labels, noted, i, m)
    ensures Noting(labels, noted + [l], i, m[l := Insert(if l in m then m[l] else [], i)])
  {
    if l !in noted {
      var ts := TargetsOf(labels, l);
      assert ts + [] == ts;
      assert i !in ts;
    }
  }

  lemma {:induction false} NotingAll(labels: seq<seq<Label>>, more: seq<Label>, m: map<Label, seq<nat>>)
    requires Noting(labels, more, |labels|, m)
    ensures Collected(labels + [more], m)
  {
    var all := labels + [more];
    assert all[..|labels|] == labels;
  }
}
