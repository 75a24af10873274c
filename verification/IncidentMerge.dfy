/** The one-shot merge of two owner streams and the server's own incident, and what makes it the right answer. */
module IncidentMerge {
  import opened Options
  import opened IncidentOrder

  predicate Sorted(s: seq<Incident>) {
    forall i, j :: 0 <= i < j < |s| ==> !Before(s[j], s[i])
  }

  /** Every incident may be shown above every later one. */
  predicate Prioritised(s: seq<Incident>) {
    forall i, j :: 0 <= i < j < |s| ==> MayPrecede(s[i], s[j])
  }

  lemma SortedMeans(s: seq<Incident>)
    requires Sorted(s)
    ensures Prioritised(s)
  {
    hide Before, MayPrecede;
    forall i, j | 0 <= i < j < |s| ensures MayPrecede(s[i], s[j]) {
      OrderMeans(s[i], s[j]);
    }
  }

  function AsSeq(self: Option<Incident>): seq<Incident> {
    if self.Some? then [self.value] else []
  }

  /** Is the first owner's head the next owner item? */
  predicate TakesFirst(a: seq<Incident>, b: seq<Incident>) {
    a != [] && (b == [] || !Before(b[0], a[0]))
  }

  function Candidate(a: seq<Incident>, b: seq<Incident>): Incident
    requires a != [] || b != []
  {
    if TakesFirst(a, b) then a[0] else b[0]
  }

  /** Is the server's own incident next? */
  predicate TakesSelf(a: seq<Incident>, b: seq<Incident>, self: Option<Incident>) {
    self.Some? && ((a == [] && b == []) || Before(self.value, Candidate(a, b)))
  }

  /** Everything at once, in priority order. */
  function OneShot(a: seq<Incident>, b: seq<Incident>, self: Option<Incident>): seq<Incident>
    decreases |a| + |b| + |AsSeq(self)|
  {
    if TakesSelf(a, b, self) then [self.value] + OneShot(a, b, None)
    else if a == [] && b == [] then []
    else if TakesFirst(a, b) then [a[0]] + OneShot(a[1..], b, self)
    else [b[0]] + OneShot(a, b[1..], self)
  }

  lemma OneShotFirst(a: seq<Incident>, b: seq<Incident>, self: Option<Incident>)
    requires !TakesSelf(a, b, self) && TakesFirst(a, b)
    ensures OneShot(a, b, self) == [a[0]] + OneShot(a[1..], b, self)
  {
    hide Before;
  }

  lemma OneShotSecond(a: seq<Incident>, b: seq<Incident>, self: Option<Incident>)
    requires !TakesSelf(a, b, self) && !TakesFirst(a, b) && b != []
    ensures OneShot(a, b, self) == [b[0]] + OneShot(a, b[1..], self)
  {
    hide Before;
  }

  /** The merge loses nothing and repeats nothing. */
  lemma {:induction false} MergeIsComplete(a: seq<Incident>, b: seq<Incident>, self: Option<Incident>)
    ensures multiset(OneShot(a, b, self)) == multiset(a) + multiset(b) + multiset(AsSeq(self))
    decreases |a| + |b| + |AsSeq(self)|
  {
    hide Before;
    if TakesSelf(a, b, self) {
      MergeIsComplete(a, b, None);
      Cons(self.value, OneShot(a, b, None));
      AddLast(multiset(a) + multiset(b), self.value);
    } else if a == [] && b == [] {
    } else if TakesFirst(a, b) {
      MergeIsComplete(a[1..], b, self);
      Cons(a[0], OneShot(a[1..], b, self));
      Uncons(a);
      AddFirst(a[0], multiset(a[1..]), multiset(b), multiset(AsSeq(self)));
    } else {
      MergeIsComplete(a, b[1..], self);
      Cons(b[0], OneShot(a, b[1..], self));
      Uncons(b);
      AddSecond(b[0], multiset(a), multiset(b[1..]), multiset(AsSeq(self)));
    }
  }

  lemma AddLast(ab: multiset<Incident>, x: Incident)
    ensures multiset{x} + (ab + multiset([])) == ab + multiset([x])
  {
  }

  lemma AddFirst(x: Incident, a: multiset<Incident>, b: multiset<Incident>, s: multiset<Incident>)
    ensures multiset{x} + (a + b + s) == (multiset{x} + a) + b + s
  {
  }

  lemma AddSecond(x: Incident, a: multiset<Incident>, b: multiset<Incident>, s: multiset<Incident>)
    ensures multiset{x} + (a + b + s) == a + (multiset{x} + b) + s
  {
  }

  lemma Cons(h: Incident, t: seq<Incident>)
    ensures multiset([h] + t) == multiset{h} + multiset(t)
  {
  }

  lemma Uncons(s: seq<Incident>)
    requires s != []
    ensures multiset(s) == multiset{s[0]} + multiset(s[1..])
  {
    assert s == [s[0]] + s[1..];
  }

  lemma MergeElements(a: seq<Incident>, b: seq<Incident>, self: Option<Incident>, x: Incident)
    requires x in OneShot(a, b, self)
    ensures x in a || x in b || x in AsSeq(self)
  {
    MergeIsComplete(a, b, self);
    assert x in multiset(OneShot(a, b, self));
  }

  lemma HeadIsFirst(s: seq<Incident>, x: Incident)
    requires Sorted(s) && s != [] && x in s
    ensures !Before(x, s[0])
  {
    BeforeIsTotal(x, s[0]);
    var i :| 0 <= i < |s| && s[i] == x;
    if i == 0 {
      BeforeIsTotal(s[0], s[0]);
    }
  }

  /** Nothing still to be merged comes before the candidate. */
  lemma CandidateIsFirst(a: seq<Incident>, b: seq<Incident>, x: Incident)
    requires Sorted(a) && Sorted(b) && (x in a || x in b)
    ensures (a != [] || b != []) && !Before(x, Candidate(a, b))
  {
    var c := Candidate(a, b);
    if x in a {
      HeadIsFirst(a, x);
      if !TakesFirst(a, b) {
        BeforeIsTotal(b[0], a[0]);
        NotAfterTransitive(b[0], a[0], x);
      }
    } else {
      HeadIsFirst(b, x);
      if TakesFirst(a, b) {
        NotAfterTransitive(a[0], b[0], x);
      }
    }
  }

  lemma SortedCons(h: Incident, t: seq<Incident>)
    requires Sorted(t) && forall x :: x in t ==> !Before(x, h)
    ensures Sorted([h] + t)
  {
  }

  /** The merge of sorted streams is sorted. */
  lemma {:induction false} MergeIsSorted(a: seq<Incident>, b: seq<Incident>, self: Option<Incident>)
    requires Sorted(a) && Sorted(b)
    ensures Sorted(OneShot(a, b, self))
    decreases |a| + |b| + |AsSeq(self)|
  {
    if TakesSelf(a, b, self) {
      MergeIsSorted(a, b, None);
      forall x | x in OneShot(a, b, None) ensures !Before(x, self.value) {
        MergeElements(a, b, None, x);
        CandidateIsFirst(a, b, x);
        BeforeIsTotal(self.value, Candidate(a, b));
        NotAfterTransitive(self.value, Candidate(a, b), x);
      }
      SortedCons(self.value, OneShot(a, b, None));
    } else if a != [] || b != [] {
      var c := Candidate(a, b);
      var a', b' := if TakesFirst(a, b) then a[1..] else a, if TakesFirst(a, b) then b else b[1..];
      MergeIsSorted(a', b', self);
      forall x | x in OneShot(a', b', self) ensures !Before(x, c) {
        MergeElements(a', b', self, x);
        if x !in AsSeq(self) {
          CandidateIsFirst(a, b, x);
        }
      }
      SortedCons(c, OneShot(a', b', self));
    }
  }

  /** The items of one module, in order. */
  function OfModule(s: seq<Incident>, m: string): seq<Incident> {
    if s == [] then [] else (if s[0].module_ == m then [s[0]] else []) + OfModule(s[1..], m)
  }

  predicate AllOf(s: seq<Incident>, m: string) {
    forall i :: 0 <= i < |s| ==> s[i].module_ == m
  }

  /** Each owner's items appear in the merge in the owner's own order. */
  lemma {:induction false} MergeKeepsOwners(a: seq<Incident>, b: seq<Incident>, self: Option<Incident>, m: string,
                                            n: string)
    requires m != n && AllOf(a, m) && AllOf(b, n) && (self.Some? ==> self.value.module_ != m && self.value.module_ != n)
    ensures OfModule(OneShot(a, b, self), m) == a && OfModule(OneShot(a, b, self), n) == b
    decreases |a| + |b| + |AsSeq(self)|
  {
    if TakesSelf(a, b, self) {
      MergeKeepsOwners(a, b, None, m, n);
      assert ([self.value] + OneShot(a, b, None))[1..] == OneShot(a, b, None);
    } else if a == [] && b == [] {
    } else if TakesFirst(a, b) {
      MergeKeepsOwners(a[1..], b, self, m, n);
      assert ([a[0]] + OneShot(a[1..], b, self))[1..] == OneShot(a[1..], b, self);
    } else {
      MergeKeepsOwners(a, b[1..], self, m, n);
      assert ([b[0]] + OneShot(a, b[1..], self))[1..] == OneShot(a, b[1..], self);
    }
  }

  /** It is enough to compare neighbours. */
  lemma {:induction false} NeighboursSorted(s: seq<Incident>)
    requires forall i :: 0 < i < |s| ==> !Before(s[i], s[i - 1])
    ensures Sorted(s)
  {
    if |s| > 1 {
      var front, last := s[..|s| - 1], s[|s| - 1];
      NeighboursSorted(front);
      BeforeIsTotal(last, last);
      SortedJoin(front, [last]);
      assert s == front + [last];
    }
  }

  /** Sorted streams can be joined where the boundary is in order. */
  lemma SortedJoin(s: seq<Incident>, t: seq<Incident>)
    requires Sorted(s) && Sorted(t) && (s != [] && t != [] ==> !Before(t[0], s[|s| - 1]))
    ensures Sorted(s + t)
  {
    forall i, j | 0 <= i < j < |s + t| ensures !Before((s + t)[j], (s + t)[i]) {
      if i < |s| <= j {
        var x, y := s[i], t[j - |s|];
        HeadIsFirst(t, y);
        NotAfterTransitive(s[|s| - 1], t[0], y);
        if i < |s| - 1 {
          NotAfterTransitive(x, s[|s| - 1], y);
        }
      }
    }
  }
}
