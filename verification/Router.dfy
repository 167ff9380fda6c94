/** Candidate selection (crates/pair-proxy/src/router.rs). */
module Router {
  import opened Octets

  datatype Candidate = Candidate(
    nodeId: string, baseUrl: string, advertisesModel: bool, isSelf: bool, pinned: bool,
    priorityRank: Option<nat>, manuallySelected: bool, host: Option<string>, ingressPort: Option<nat>)

  predicate Eligible(c: Candidate) {
    c.advertisesModel && (c.isSelf || c.pinned)
  }

  /** Rust's order on strings. */
  predicate StringLeq(a: string, b: string) {
    a == "" || (b != "" && (a[0] < b[0] || (a[0] == b[0] && StringLeq(a[1..], b[1..]))))
  }

  // ---- the code: references into the slice are positions ----

  /** The positions that the filter keeps, in order. */
  function EligibleFrom(cs: seq<Candidate>, i: nat): (es: seq<nat>)
    requires i <= |cs|
    ensures forall n :: 0 <= n < |es| ==> i <= es[n] < |cs| && Eligible(cs[es[n]])
    ensures forall x :: i <= x < |cs| && Eligible(cs[x]) ==> x in es
    ensures forall m, n :: 0 <= m < n < |es| ==> es[m] < es[n]
    decreases |cs| - i
  {
    if i == |cs| then [] else (if Eligible(cs[i]) then [i] else []) + EligibleFrom(cs, i + 1)
  }

  function FindFirst(cs: seq<Candidate>, es: seq<nat>, p: Candidate -> bool): Option<nat>
    requires forall n :: 0 <= n < |es| ==> es[n] < |cs|
  {
    if |es| == 0 then None else if p(cs[es[0]]) then Some(es[0]) else FindFirst(cs, es[1..], p)
  }

  /** `min_by`: the earliest of the candidates that satisfy `p` and that no other such one beats. */
  function MinBy(cs: seq<Candidate>, es: seq<nat>, p: Candidate -> bool,
                 less: (Candidate, Candidate) -> bool): Option<nat>
    requires forall n :: 0 <= n < |es| ==> es[n] < |cs|
    ensures var r := MinBy(cs, es, p, less); r.Some? ==> r.value in es && p(cs[r.value])
  {
    if |es| == 0 then None
    else
      var last := es[|es| - 1];
      var best := MinBy(cs, es[..|es| - 1], p, less);
      if p(cs[last]) && (best.None? || less(cs[last], cs[best.value])) then Some(last) else best
  }

  predicate Manual(c: Candidate) { c.manuallySelected }

  predicate Ranked(c: Candidate) { c.priorityRank.Some? }

  predicate IsSelf(c: Candidate) { c.isSelf }

  predicate Anyone(c: Candidate) { true }

  predicate LowerRank(a: Candidate, b: Candidate) {
    a.priorityRank.Some? && b.priorityRank.Some? && a.priorityRank.value < b.priorityRank.value
  }

  predicate LowerId(a: Candidate, b: Candidate) {
    !StringLeq(b.nodeId, a.nodeId)
  }

  function Select(cs: seq<Candidate>): Option<nat> {
    var es := EligibleFrom(cs, 0);
    var manual := FindFirst(cs, es, Manual);
    var ranked := MinBy(cs, es, Ranked, LowerRank);
    var self := FindFirst(cs, es, IsSelf);
    if |es| == 0 then None
    else if manual.Some? then manual
    else if ranked.Some? then ranked
    else if self.Some? then self
    else MinBy(cs, es, Anyone, LowerId)
  }

  // ---- the meaning: one total preorder ----

  /** Manually selected, then ranked, then this node, then the rest. */
  function Tier(c: Candidate): nat {
    if c.manuallySelected then 0 else if c.priorityRank.Some? then 1 else if c.isSelf then 2 else 3
  }

  /** `a` is preferred to `b` or on a par with it. */
  predicate Leq(a: Candidate, b: Candidate) {
    Tier(a) < Tier(b)
    || (Tier(a) == Tier(b)
        && (Tier(a) == 1 ==> a.priorityRank.value <= b.priorityRank.value)
        && (Tier(a) == 3 ==> StringLeq(a.nodeId, b.nodeId)))
  }

  lemma {:induction false} StringLeqTotal(a: string, b: string)
    ensures StringLeq(a, b) || StringLeq(b, a)
    ensures StringLeq(a, b) && StringLeq(b, a) ==> a == b
  {
    if a != "" && b != "" {
      StringLeqTotal(a[1..], b[1..]);
      assert a == [a[0]] + a[1..] && b == [b[0]] + b[1..];
    }
  }

  lemma {:induction false} StringLeqTransitive(a: string, b: string, c: string)
    requires StringLeq(a, b) && StringLeq(b, c)
    ensures StringLeq(a, c)
  {
    if a != "" && a[0] == b[0] && b[0] == c[0] {
      StringLeqTransitive(a[1..], b[1..], c[1..]);
    }
  }

  /** The preference is a total preorder. */
  lemma LeqIsTotalPreorder(a: Candidate, b: Candidate, c: Candidate)
    ensures Leq(a, b) || Leq(b, a)
    ensures Leq(a, b) && Leq(b, c) ==> Leq(a, c)
  {
    StringLeqTotal(a.nodeId, b.nodeId);
    if StringLeq(a.nodeId, b.nodeId) && StringLeq(b.nodeId, c.nodeId) {
      StringLeqTransitive(a.nodeId, b.nodeId, c.nodeId);
    }
  }

  /** `i` is the first of the eligible positions that is preferred to, or on a par with, every other. */
  predicate FirstMinimal(cs: seq<Candidate>, i: nat) {
    && i < |cs| && Eligible(cs[i])
    && (forall j :: 0 <= j < |cs| && Eligible(cs[j]) ==> Leq(cs[i], cs[j]))
    && (forall j :: 0 <= j < i && Eligible(cs[j]) ==> !Leq(cs[j], cs[i]))
  }

  lemma {:induction false} FindFirstFinds(cs: seq<Candidate>, es: seq<nat>, p: Candidate -> bool)
    requires forall n :: 0 <= n < |es| ==> es[n] < |cs|
    requires forall m, n :: 0 <= m < n < |es| ==> es[m] < es[n]
    ensures var r := FindFirst(cs, es, p);
      && (r.None? ==> forall x :: x in es ==> !p(cs[x]))
      && (r.Some? ==> r.value in es && p(cs[r.value]) && forall x :: x in es && x < r.value ==> !p(cs[x]))
  {
    if |es| > 0 && !p(cs[es[0]]) {
      FindFirstFinds(cs, es[1..], p);
      assert forall x :: x in es ==> x == es[0] || x in es[1..];
    }
  }

  lemma {:induction false} MinByRank(cs: seq<Candidate>, es: seq<nat>)
    requires forall n :: 0 <= n < |es| ==> es[n] < |cs|
    requires forall m, n :: 0 <= m < n < |es| ==> es[m] < es[n]
    ensures var r := MinBy(cs, es, Ranked, LowerRank);
      && (r.None? ==> forall x :: x in es ==> !Ranked(cs[x]))
      && (r.Some? ==> forall x :: x in es && Ranked(cs[x]) ==>
            && cs[r.value].priorityRank.value <= cs[x].priorityRank.value
            && (x < r.value ==> cs[r.value].priorityRank.value < cs[x].priorityRank.value))
  {
    if |es| > 0 {
      var n := |es| - 1;
      MinByRank(cs, es[..n]);
      assert forall x :: x in es ==> x == es[n] || x in es[..n];
      assert forall x :: x in es[..n] ==> x < es[n];
    }
  }

  /** A candidate that beats the best so far beats all that the best did not lose to. */
  lemma LowerIdWins(lower: Candidate, best: Candidate, x: Candidate)
    requires LowerId(lower, best) && StringLeq(best.nodeId, x.nodeId)
    ensures StringLeq(lower.nodeId, x.nodeId) && !StringLeq(x.nodeId, lower.nodeId)
  {
    StringLeqTotal(best.nodeId, lower.nodeId);
    StringLeqTransitive(lower.nodeId, best.nodeId, x.nodeId);
    if StringLeq(x.nodeId, lower.nodeId) {
      StringLeqTransitive(best.nodeId, x.nodeId, lower.nodeId);
    }
  }

  /** `r` has a least id, and is before every other that has it. */
  predicate LeastId(cs: seq<Candidate>, es: seq<nat>, r: nat)
    requires forall n :: 0 <= n < |es| ==> es[n] < |cs|
    requires r < |cs|
  {
    forall x :: x in es ==>
      StringLeq(cs[r].nodeId, cs[x].nodeId) && (x < r ==> !StringLeq(cs[x].nodeId, cs[r].nodeId))
  }

  /** One more position: it stays behind the best, or wins against all before it. */
  lemma LeastIdStep(cs: seq<Candidate>, es: seq<nat>, best: nat)
    requires |es| > 0 && forall n :: 0 <= n < |es| ==> es[n] < |cs|
    requires forall m, n :: 0 <= m < n < |es| ==> es[m] < es[n]
    requires best in es[..|es| - 1] && LeastId(cs, es[..|es| - 1], best)
    ensures LeastId(cs, es, if LowerId(cs[es[|es| - 1]], cs[best]) then es[|es| - 1] else best)
  {
    var n := |es| - 1;
    StringLeqTotal(cs[best].nodeId, cs[es[n]].nodeId);
    StringLeqTotal(cs[es[n]].nodeId, cs[es[n]].nodeId);
    hide StringLeq;
    forall x | x in es
      ensures x == es[n] || x in es[..n]
      ensures LowerId(cs[es[n]], cs[best]) && x in es[..n] ==>
                StringLeq(cs[es[n]].nodeId, cs[x].nodeId) && !StringLeq(cs[x].nodeId, cs[es[n]].nodeId)
    {
      if LowerId(cs[es[n]], cs[best]) && x in es[..n] {
        LowerIdWins(cs[es[n]], cs[best], cs[x]);
      }
    }
  }

  lemma {:induction false} MinById(cs: seq<Candidate>, es: seq<nat>)
    requires forall n :: 0 <= n < |es| ==> es[n] < |cs|
    requires forall m, n :: 0 <= m < n < |es| ==> es[m] < es[n]
    ensures var r := MinBy(cs, es, Anyone, LowerId);
      && (r.None? ==> es == [])
      && (r.Some? ==> r.value in es && LeastId(cs, es, r.value))
  {
    if |es| > 0 {
      var n := |es| - 1;
      MinById(cs, es[..n]);
      var best := MinBy(cs, es[..n], Anyone, LowerId);
      if best.Some? {
        LeastIdStep(cs, es, best.value);
      } else {
        StringLeqTotal(cs[es[n]].nodeId, cs[es[n]].nodeId);
      }
      hide LowerId, StringLeq;
    }
  }

  /** Being least among the kept positions is being first minimal. */
  lemma LeastIsFirstMinimal(cs: seq<Candidate>, i: nat)
    requires i in EligibleFrom(cs, 0)
    requires forall x :: x in EligibleFrom(cs, 0) ==> Leq(cs[i], cs[x]) && (x < i ==> !Leq(cs[x], cs[i]))
    ensures FirstMinimal(cs, i)
  {
    hide Leq;
  }

  lemma ManualIsLeast(cs: seq<Candidate>)
    ensures var r := FindFirst(cs, EligibleFrom(cs, 0), Manual); r.Some? ==> FirstMinimal(cs, r.value)
  {
    FindFirstFinds(cs, EligibleFrom(cs, 0), Manual);
    var r := FindFirst(cs, EligibleFrom(cs, 0), Manual);
    hide EligibleFrom, FindFirst, MinBy, FirstMinimal, Eligible, StringLeq;
    if r.Some? {
      forall x | x in EligibleFrom(cs, 0)
        ensures Leq(cs[r.value], cs[x]) && (x < r.value ==> !Leq(cs[x], cs[r.value]))
      {
        assert x < |cs|;
      }
      LeastIsFirstMinimal(cs, r.value);
    }
  }

  lemma RankedBeats(c: Candidate, d: Candidate)
    requires !Manual(c) && !Manual(d) && Ranked(c)
    ensures (Ranked(d) ==> c.priorityRank.value <= d.priorityRank.value) ==> Leq(c, d)
    ensures (Ranked(d) ==> c.priorityRank.value < d.priorityRank.value) ==> !Leq(d, c)
  {
  }

  lemma RankedIsLeast(cs: seq<Candidate>)
    requires forall x :: x in EligibleFrom(cs, 0) ==> !Manual(cs[x])
    ensures var r := MinBy(cs, EligibleFrom(cs, 0), Ranked, LowerRank); r.Some? ==> FirstMinimal(cs, r.value)
  {
    MinByRank(cs, EligibleFrom(cs, 0));
    var r := MinBy(cs, EligibleFrom(cs, 0), Ranked, LowerRank);
    hide EligibleFrom, FindFirst, MinBy, FirstMinimal, Eligible, StringLeq, Leq, Manual;
    if r.Some? {
      forall x | x in EligibleFrom(cs, 0)
        ensures Leq(cs[r.value], cs[x]) && (x < r.value ==> !Leq(cs[x], cs[r.value]))
      {
        RankedBeats(cs[r.value], cs[x]);
      }
      LeastIsFirstMinimal(cs, r.value);
    }
  }

  lemma SelfIsLeast(cs: seq<Candidate>)
    requires forall x :: x in EligibleFrom(cs, 0) ==> !Manual(cs[x]) && !Ranked(cs[x])
    ensures var r := FindFirst(cs, EligibleFrom(cs, 0), IsSelf); r.Some? ==> FirstMinimal(cs, r.value)
  {
    FindFirstFinds(cs, EligibleFrom(cs, 0), IsSelf);
    var r := FindFirst(cs, EligibleFrom(cs, 0), IsSelf);
    hide EligibleFrom, FindFirst, MinBy, FirstMinimal, Eligible, StringLeq;
    if r.Some? {
      forall x | x in EligibleFrom(cs, 0)
        ensures Leq(cs[r.value], cs[x]) && (x < r.value ==> !Leq(cs[x], cs[r.value]))
      {
        assert x < |cs|;
      }
      LeastIsFirstMinimal(cs, r.value);
    }
  }

  lemma LowestIdIsLeast(cs: seq<Candidate>)
    requires forall x :: x in EligibleFrom(cs, 0) ==> !Manual(cs[x]) && !Ranked(cs[x]) && !IsSelf(cs[x])
    ensures var r := MinBy(cs, EligibleFrom(cs, 0), Anyone, LowerId); r.Some? ==> FirstMinimal(cs, r.value)
  {
    MinById(cs, EligibleFrom(cs, 0));
    var r := MinBy(cs, EligibleFrom(cs, 0), Anyone, LowerId);
    hide EligibleFrom, FindFirst, MinBy, FirstMinimal, Eligible, StringLeq;
    if r.Some? {
      forall x | x in EligibleFrom(cs, 0)
        ensures Leq(cs[r.value], cs[x]) && (x < r.value ==> !Leq(cs[x], cs[r.value]))
      {
        assert x < |cs|;
      }
      LeastIsFirstMinimal(cs, r.value);
    }
  }

  /** Selection returns the first minimal eligible candidate, and none exactly when none is eligible. */
  lemma SelectIsFirstMinimal(cs: seq<Candidate>)
    ensures Select(cs).None? <==> forall j :: 0 <= j < |cs| ==> !Eligible(cs[j])
    ensures Select(cs).Some? ==> FirstMinimal(cs, Select(cs).value)
  {
    var es := EligibleFrom(cs, 0);
    hide EligibleFrom, FindFirst, MinBy, FirstMinimal, Eligible, StringLeq;
    if |es| > 0 {
      assert es[0] in es && Eligible(cs[es[0]]);
      ManualIsLeast(cs);
      FindFirstFinds(cs, es, Manual);
      if FindFirst(cs, es, Manual).None? {
        RankedIsLeast(cs);
        MinByRank(cs, es);
        if MinBy(cs, es, Ranked, LowerRank).None? {
          SelfIsLeast(cs);
          FindFirstFinds(cs, es, IsSelf);
          if FindFirst(cs, es, IsSelf).None? {
            LowestIdIsLeast(cs);
            MinById(cs, es);
          }
        }
      }
    }
  }

  /** At most one position is first minimal. */
  lemma FirstMinimalUnique(cs: seq<Candidate>, i: nat, j: nat)
    requires FirstMinimal(cs, i) && FirstMinimal(cs, j)
    ensures i == j
  {
  }

  // ---- in full ----

  /** `a` is a prefix of `b`, or the first character in which they differ is less in `a`. */
  ghost predicate LexLeq(a: string, b: string) {
    a <= b || exists i :: 0 <= i < |a| && i < |b| && a[..i] == b[..i] && a[i] < b[i]
  }

  lemma {:induction false} StringLeqInFull(a: string, b: string)
    ensures StringLeq(a, b) <==> LexLeq(a, b)
  {
    if a != "" && b != "" && a[0] == b[0] {
      StringLeqInFull(a[1..], b[1..]);
      if a[1..] <= b[1..] {
        assert a == [a[0]] + a[1..] && b[..|a|] == [b[0]] + b[1..][..|a| - 1];
      }
      if i :| 0 <= i < |a[1..]| && i < |b[1..]| && a[1..][..i] == b[1..][..i] && a[1..][i] < b[1..][i] {
        assert a[..i + 1] == [a[0]] + a[1..][..i] && b[..i + 1] == [b[0]] + b[1..][..i];
        assert a[i + 1] < b[i + 1];
      }
      if a <= b {
        assert a[1..] == b[1..][..|a| - 1];
      }
      if i :| 0 <= i < |a| && i < |b| && a[..i] == b[..i] && a[i] < b[i] {
        assert i > 0 && a[1..][..i - 1] == a[..i][1..] && b[1..][..i - 1] == b[..i][1..];
        assert a[1..][i - 1] < b[1..][i - 1];
      }
    } else if a != "" && b != "" {
      assert a[..0] == b[..0];
      assert forall i :: 0 < i < |a| && i < |b| ==> a[..i][0] == a[0] && b[..i][0] == b[0];
    }
  }

  /** A candidate may be routed to: it has the model, and is this node or a pinned peer. */
  predicate MayServe(c: Candidate) {
    c.advertisesModel && (c.isSelf || c.pinned)
  }

  /** `c` is chosen before or with `d`: manual first, then the lowest rank, then this node, then the least id. */
  ghost predicate Before(c: Candidate, d: Candidate) {
    && (d.manuallySelected ==> c.manuallySelected)
    && (c.manuallySelected ||
        (&& (d.priorityRank.Some? ==> c.priorityRank.Some? && c.priorityRank.value <= d.priorityRank.value)
         && (c.priorityRank.Some? ||
             ((d.isSelf ==> c.isSelf) && (c.isSelf || LexLeq(c.nodeId, d.nodeId))))))
  }

  /** The choice: one that may serve and comes before or with all that may, the first of those with which it ties. */
  lemma SelectInFull(cs: seq<Candidate>)
    ensures Select(cs).None? <==> forall j :: 0 <= j < |cs| ==> !MayServe(cs[j])
    ensures Select(cs).Some? ==>
              var i := Select(cs).value;
              && i < |cs| && MayServe(cs[i])
              && forall j :: 0 <= j < |cs| && MayServe(cs[j]) ==>
                   Before(cs[i], cs[j]) && (j < i ==> !Before(cs[j], cs[i]))
  {
    SelectIsFirstMinimal(cs);
    forall c: Candidate, d: Candidate
      ensures Leq(c, d) <==> Before(c, d)
    {
      StringLeqInFull(c.nodeId, d.nodeId);
      hide StringLeq, LexLeq;
    }
    hide Select, Leq, Before;
  }
}
