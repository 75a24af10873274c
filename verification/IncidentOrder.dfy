/** The priority order of incidents. */
module IncidentOrder {
  /** One incident as the composer sees it: its ordering keys and the rest of its fields. */
  datatype Incident = Incident(
    id: string, module_: string, state: string, severity: string, action: bool, time: int, rest: string)

  function SeverityRank(severity: string): nat {
    if severity == "CRITICAL" then 4
    else if severity == "ERROR" then 3
    else if severity == "WARNING" then 2
    else if severity == "INFO" then 1
    else 0
  }

  /** Lexicographic order on strings. */
  predicate StringLess(a: string, b: string) {
    if b == "" then false
    else if a == "" then true
    else a[0] < b[0] || (a[0] == b[0] && StringLess(a[1..], b[1..]))
  }

  /** Unresolved first, then severity, action required, latest time, module and id. */
  predicate Before(a: Incident, b: Incident) {
    if (a.state == "RESOLVED") != (b.state == "RESOLVED") then a.state != "RESOLVED"
    else if SeverityRank(a.severity) != SeverityRank(b.severity) then
      SeverityRank(a.severity) > SeverityRank(b.severity)
    else if a.action != b.action then a.action
    else if a.time != b.time then a.time > b.time
    else if a.module_ != b.module_ then StringLess(a.module_, b.module_)
    else StringLess(a.id, b.id)
  }

  lemma {:induction false} StringLessAsymmetric(a: string, b: string)
    ensures !(StringLess(a, b) && StringLess(b, a))
  {
    if a != "" && b != "" {
      StringLessAsymmetric(a[1..], b[1..]);
    }
  }

  lemma {:induction false} StringLessTotal(a: string, b: string)
    ensures a == b || StringLess(a, b) || StringLess(b, a)
  {
    if a != "" && b != "" && a[0] == b[0] {
      StringLessTotal(a[1..], b[1..]);
      assert a == [a[0]] + a[1..] && b == [b[0]] + b[1..];
    }
  }

  lemma {:induction false} StringLessTransitive(a: string, b: string, c: string)
    requires StringLess(a, b) && StringLess(b, c)
    ensures StringLess(a, c)
  {
    if a != "" && a[0] == b[0] == c[0] {
      StringLessTransitive(a[1..], b[1..], c[1..]);
    }
  }

  // ---- The order in plain terms.

  /** `a` is `b` or comes before it in a dictionary: they agree up to the end of `a`, or up to a smaller character. */
  predicate Alphabetical(a: string, b: string) {
    exists k :: 0 <= k <= |a| && k <= |b| && a[..k] == b[..k] && (k == |a| || (k < |b| && a[k] < b[k]))
  }

  lemma {:induction false} NotLessIsAlphabetical(a: string, b: string)
    requires !StringLess(b, a)
    ensures Alphabetical(a, b)
  {
    if a == "" || a[0] != b[0] {
      assert a[..0] == b[..0];
    } else {
      NotLessIsAlphabetical(a[1..], b[1..]);
      var k :| 0 <= k <= |a[1..]| && k <= |b[1..]| && a[1..][..k] == b[1..][..k] &&
        (k == |a[1..]| || (k < |b[1..]| && a[1..][k] < b[1..][k]));
      assert a[..k + 1] == [a[0]] + a[1..][..k] && b[..k + 1] == [b[0]] + b[1..][..k];
    }
  }

  lemma {:induction false} AlphabeticalIsNotLess(a: string, b: string)
    requires Alphabetical(a, b)
    ensures !StringLess(b, a)
  {
    var k :| 0 <= k <= |a| && k <= |b| && a[..k] == b[..k] && (k == |a| || (k < |b| && a[k] < b[k]));
    if k > 0 {
      assert a[0] == a[..k][0] == b[..k][0] == b[0];
      assert a[1..][..k - 1] == a[..k][1..] == b[..k][1..] == b[1..][..k - 1];
      AlphabeticalIsNotLess(a[1..], b[1..]);
    }
  }

  lemma AlphabetMeans(a: string, b: string)
    ensures Alphabetical(a, b) <==> !StringLess(b, a)
  {
    hide Alphabetical;
    if StringLess(b, a) {
      if Alphabetical(a, b) {
        AlphabeticalIsNotLess(a, b);
      }
    } else {
      NotLessIsAlphabetical(a, b);
    }
  }

  /** `first` may be shown above `second`: what is unresolved comes first, then critical, error, warning and
      information, then what requires action, then the latest, then by module and id. */
  predicate MayPrecede(first: Incident, second: Incident) {
    && (first.state == "RESOLVED" ==> second.state == "RESOLVED")
    && ((first.state == "RESOLVED") == (second.state == "RESOLVED") ==>
          && (second.severity == "CRITICAL" ==> first.severity == "CRITICAL")
          && (second.severity == "ERROR" ==> first.severity in {"CRITICAL", "ERROR"})
          && (second.severity == "WARNING" ==> first.severity in {"CRITICAL", "ERROR", "WARNING"})
          && (second.severity == "INFO" ==> first.severity in {"CRITICAL", "ERROR", "WARNING", "INFO"})
          && (first.severity == second.severity ==>
                && (second.action ==> first.action)
                && (first.action == second.action ==>
                      && first.time >= second.time
                      && (first.time == second.time ==>
                            && Alphabetical(first.module_, second.module_)
                            && (first.module_ == second.module_ ==> Alphabetical(first.id, second.id))))))
  }

  predicate Graded(a: Incident) { a.severity in {"CRITICAL", "ERROR", "WARNING", "INFO"} }

  /** `a` may be shown above `b` wherever the order does not put `b` before `a`, and among graded incidents only
      there. */
  lemma OrderMeans(a: Incident, b: Incident)
    ensures !Before(b, a) ==> MayPrecede(a, b)
    ensures Graded(a) && Graded(b) && MayPrecede(a, b) ==> !Before(b, a)
  {
    hide Alphabetical, StringLess;
    AlphabetMeans(a.module_, b.module_);
    AlphabetMeans(a.module_, a.module_);
    AlphabetMeans(a.id, b.id);
    StringLessAsymmetric(a.module_, a.module_);
  }

  /** The order is total up to incidents that agree on every ordering key, and never holds both ways. */
  lemma BeforeIsTotal(a: Incident, b: Incident)
    ensures !(Before(a, b) && Before(b, a))
    ensures Before(a, b) || Before(b, a) || (a.module_ == b.module_ && a.id == b.id)
  {
    StringLessAsymmetric(a.module_, b.module_);
    StringLessAsymmetric(a.id, b.id);
    StringLessTotal(a.module_, b.module_);
    StringLessTotal(a.id, b.id);
  }

  /** "Not after" is transitive, so the order has no cycles and ties are consistent. */
  lemma NotAfterTransitive(a: Incident, b: Incident, c: Incident)
    requires !Before(b, a) && !Before(c, b)
    ensures !Before(c, a)
  {
    NotLessTransitive(a.module_, b.module_, c.module_);
    NotLessTransitive(a.id, b.id, c.id);
  }

  lemma NotLessTransitive(a: string, b: string, c: string)
    ensures !StringLess(b, a) && !StringLess(c, b) ==> !StringLess(c, a)
    ensures !StringLess(b, a) && !StringLess(c, b) && a == c ==> a == b
    ensures !StringLess(b, a) && a != b ==> StringLess(a, b)
    ensures !StringLess(c, b) && b != c ==> StringLess(b, c)
    ensures StringLess(a, b) && StringLess(b, c) ==> StringLess(a, c)
    ensures !(StringLess(a, b) && StringLess(b, a)) && !(StringLess(b, c) && StringLess(c, b)) &&
            !(StringLess(a, c) && StringLess(c, a))
  {
    StringLessTotal(a, b);
    StringLessTotal(b, c);
    StringLessAsymmetric(a, b);
    StringLessAsymmetric(b, c);
    StringLessAsymmetric(a, c);
    if StringLess(a, b) && StringLess(b, c) {
      StringLessTransitive(a, b, c);
    }
  }
}
