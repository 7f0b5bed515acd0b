/**
 Reading an Instance's service names off its Pod: the names of the spec's containers first, then the others
 sorted. Characters are compared by code point, which is the byte order of their UTF-8 encoding.
 */
module Fqdns {
  import opened Options

  // ----- Order -----

  predicate Less(a: string, b: string) {
    b != [] && (a == [] || a[0] < b[0] || (a[0] == b[0] && Less(a[1..], b[1..])))
  }

  lemma {:induction false} LessIsTotal(a: string, b: string)
    ensures Less(a, b) ==> !Less(b, a) && a != b
    ensures Less(a, b) || Less(b, a) || a == b
  {
    if a != [] && b != [] && a[0] == b[0] {
      LessIsTotal(a[1..], b[1..]);
      assert a == [a[0]] + a[1..] && b == [b[0]] + b[1..];
    }
  }

  lemma {:induction false} LessIsTransitive(a: string, b: string, c: string)
    requires Less(a, b) && Less(b, c)
    ensures Less(a, c)
  {
    if a != [] && a[0] == b[0] == c[0] {
      LessIsTransitive(a[1..], b[1..], c[1..]);
    }
  }

  ghost predicate Ascending(s: seq<string>, lt: (string, string) -> bool) {
    forall i, j :: 0 <= i < j < |s| ==> lt(s[i], s[j])
  }

  ghost predicate Asymmetric(lt: (string, string) -> bool) {
    forall a, b :: lt(a, b) ==> !lt(b, a)
  }

  ghost predicate SameElements(a: seq<string>, b: seq<string>) {
    forall x :: x in a <==> x in b
  }

  /** Two ascending sequences of the same elements are equal. */
  lemma {:induction false} AscendingIsUnique(a: seq<string>, b: seq<string>, lt: (string, string) -> bool)
    requires Asymmetric(lt) && Ascending(a, lt) && Ascending(b, lt) && SameElements(a, b)
    ensures a == b
  {
    HeadIsIn(a);
    HeadIsIn(b);
    if a != [] {
      assert a[0] in b && b[0] in a;
      var i :| 0 <= i < |b| && b[i] == a[0];
      var j :| 0 <= j < |a| && a[j] == b[0];
      assert a[0] == b[0];
      TailsHaveSameElements(a, b, lt);
      AscendingIsUnique(a[1..], b[1..], lt);
      assert a == [a[0]] + a[1..] && b == [b[0]] + b[1..];
    }
  }

  lemma HeadIsIn(a: seq<string>)
    ensures a == [] || a[0] in a
  {
  }

  lemma TailsHaveSameElements(a: seq<string>, b: seq<string>, lt: (string, string) -> bool)
    requires Asymmetric(lt) && Ascending(a, lt) && Ascending(b, lt) && SameElements(a, b)
    requires a != [] && b != [] && a[0] == b[0]
    ensures SameElements(a[1..], b[1..])
  {
    forall x ensures x in a[1..] <==> x in b[1..] {
      HeadIsNotInTail(a, lt);
      HeadIsNotInTail(b, lt);
      assert x in a <==> x == a[0] || x in a[1..];
      assert x in b <==> x == b[0] || x in b[1..];
    }
  }

  lemma HeadIsNotInTail(a: seq<string>, lt: (string, string) -> bool)
    requires Asymmetric(lt) && Ascending(a, lt) && a != []
    ensures a[0] !in a[1..]
  {
  }

  // ----- What is extracted -----

  /** The position of the first occurrence, or the length. */
  function FirstIndex(s: seq<string>, x: string): (i: nat)
    ensures i <= |s| && forall j :: 0 <= j < i ==> s[j] != x
    ensures i < |s| <==> x in s
    ensures i < |s| ==> s[i] == x
  {
    if s == [] then 0
    else if FirstIndex(s[..|s| - 1], x) < |s| - 1 then FirstIndex(s[..|s| - 1], x)
    else if s[|s| - 1] == x then |s| - 1
    else |s|
  }

  predicate Named(fqdns: map<string, string>, name: string) {
    name in fqdns && fqdns[name] != ""
  }

  ghost function ByFirstIndex(containers: seq<string>): (string, string) -> bool {
    (a, b) => FirstIndex(containers, a) < FirstIndex(containers, b)
  }

  ghost function ByName(): (string, string) -> bool {
    (a, b) => Less(a, b)
  }

  /**
   The names whose service names are reported: `own` are those of the spec's containers, by first occurrence;
   `rest` are all others, by name. Each name with a service name appears exactly once.
   */
  ghost predicate IsOrder(own: seq<string>, rest: seq<string>, containers: seq<string>, fqdns: map<string, string>) {
    && (forall n :: n in own <==> n in containers && Named(fqdns, n))
    && (forall n :: n in rest <==> n !in containers && Named(fqdns, n))
    && Ascending(own, ByFirstIndex(containers)) && Ascending(rest, ByName())
  }

  function ServiceNames(order: seq<string>, fqdns: map<string, string>): seq<string>
    requires forall n :: n in order ==> n in fqdns
  {
    seq(|order|, i requires 0 <= i < |order| => fqdns[order[i]])
  }

  ghost predicate IsExtraction(out: seq<string>, containers: seq<string>, fqdns: map<string, string>) {
    exists own, rest :: IsOrder(own, rest, containers, fqdns) && out == ServiceNames(own + rest, fqdns)
  }

  /** The result is determined by the spec and the map alone, so map iteration order cannot show. */
  lemma ExtractionIsUnique(out: seq<string>, out': seq<string>, containers: seq<string>, fqdns: map<string, string>)
    requires IsExtraction(out, containers, fqdns) && IsExtraction(out', containers, fqdns)
    ensures out == out'
  {
    var own, rest :| IsOrder(own, rest, containers, fqdns) && out == ServiceNames(own + rest, fqdns);
    var own', rest' :| IsOrder(own', rest', containers, fqdns) && out' == ServiceNames(own' + rest', fqdns);
    AscendingIsUnique(own, own', ByFirstIndex(containers));
    forall a, b | Less(a, b) ensures !Less(b, a) {
      LessIsTotal(a, b);
    }
    AscendingIsUnique(rest, rest', ByName());
  }

  // ----- Sorting -----

  ghost predicate Distinct(s: seq<string>) {
    forall i, j :: 0 <= i < j < |s| ==> s[i] != s[j]
  }

  function Insert(s: seq<string>, x: string): seq<string> {
    if s == [] || Less(x, s[0]) then [x] + s else [s[0]] + Insert(s[1..], x)
  }

  function Sort(s: seq<string>): seq<string> {
    if s == [] then [] else Insert(Sort(s[..|s| - 1]), s[|s| - 1])
  }

  lemma {:induction false} InsertSorts(s: seq<string>, x: string)
    requires Ascending(s, ByName()) && x !in s
    ensures Ascending(Insert(s, x), ByName())
    ensures forall y :: y in Insert(s, x) <==> y == x || y in s
  {
    if s != [] {
      if Less(x, s[0]) {
        forall j | 0 <= j < |s| ensures Less(x, s[j]) {
          if j > 0 {
            assert ByName()(s[0], s[j]);
            LessIsTransitive(x, s[0], s[j]);
          }
        }
      } else {
        InsertSorts(s[1..], x);
        LessIsTotal(x, s[0]);
        var t := Insert(s[1..], x);
        forall j | 0 <= j < |t| ensures Less(s[0], t[j]) {
          assert t[j] in t;
          if t[j] != x {
            var k :| 0 <= k < |s[1..]| && s[1..][k] == t[j];
            assert ByName()(s[0], s[k + 1]);
          }
        }
        assert forall y :: y in s <==> y == s[0] || y in s[1..];
      }
    }
  }

  lemma {:induction false} SortSorts(s: seq<string>)
    requires Distinct(s)
    ensures Ascending(Sort(s), ByName()) && SameElements(Sort(s), s)
  {
    if s != [] {
      var pre, last := s[..|s| - 1], s[|s| - 1];
      SortSorts(pre);
      assert s == pre + [last];
      assert last !in pre;
      InsertSorts(Sort(pre), last);
    }
  }

  // ----- The procedure -----

  /** Appends the service name of `name` unless it was taken already or has none. */
  method Add(name: string, fqdns: map<string, string>, seen: set<string>, out: seq<string>)
    returns (seen': set<string>, out': seq<string>)
    ensures seen' == if name !in seen && Named(fqdns, name) then seen + {name} else seen
    ensures out' == if name !in seen && Named(fqdns, name) then out + [fqdns[name]] else out
  {
    seen', out' := seen, out;
    if name in seen {
      return;
    }
    if name !in fqdns || fqdns[name] == "" {
      return;
    }
    seen', out' := seen + {name}, out + [fqdns[name]];
  }

  method AddContainers(containers: seq<string>, fqdns: map<string, string>)
    returns (seen: set<string>, out: seq<string>, ghost own: seq<string>)
    ensures forall n :: n in own ==> n in fqdns
    ensures forall n :: n in own <==> n in containers && Named(fqdns, n)
    ensures forall n :: n in seen <==> n in own
    ensures Ascending(own, ByFirstIndex(containers))
    ensures out == ServiceNames(own, fqdns)
  {
    seen, out, own := {}, [], [];
    for i := 0 to |containers|
      invariant forall n :: n in own <==> n in containers[..i] && Named(fqdns, n)
      invariant forall n :: n in seen <==> n in own
      invariant forall n :: n in own ==> FirstIndex(containers, n) < i
      invariant Ascending(own, ByFirstIndex(containers))
      invariant out == ServiceNames(own, fqdns)
    {
      var name := containers[i];
      assert containers[..i + 1] == containers[..i] + [name];
      if name !in seen && Named(fqdns, name) {
        FirstSightAscends(containers, i, own);
        own := own + [name];
      }
      seen, out := Add(name, fqdns, seen, out);
    }
    assert containers[..|containers|] == containers;
  }

  /** A name seen for the first time comes after all names seen before. */
  lemma FirstSightAscends(containers: seq<string>, i: nat, own: seq<string>)
    requires i < |containers| && containers[i] !in containers[..i]
    requires Ascending(own, ByFirstIndex(containers))
    requires forall n :: n in own ==> FirstIndex(containers, n) < i
    ensures FirstIndex(containers, containers[i]) == i
    ensures Ascending(own + [containers[i]], ByFirstIndex(containers))
  {
  }

  /** The names not taken yet, in whatever order the map yields them. */
  method Remaining(fqdns: map<string, string>, seen: set<string>) returns (remaining: seq<string>)
    ensures Distinct(remaining)
    ensures forall n :: n in remaining <==> n in fqdns && n !in seen
  {
    remaining := [];
    var left := fqdns.Keys;
    while left != {}
      invariant left <= fqdns.Keys && Distinct(remaining)
      invariant forall n :: n in remaining <==> n in fqdns && n !in left && n !in seen
      decreases left
    {
      var name :| name in left;
      left := left - {name};
      if name !in seen {
        remaining := remaining + [name];
      }
    }
  }

  /** The service names of the sorted names, after those of `own`. */
  method AddSorted(sorted: seq<string>, fqdns: map<string, string>, taken: set<string>, first: seq<string>,
                   ghost own: seq<string>)
    returns (out: seq<string>, ghost rest: seq<string>)
    requires Ascending(sorted, ByName())
    requires (forall n :: n in own ==> n in fqdns) && first == ServiceNames(own, fqdns)
    requires forall n :: n in sorted ==> n !in taken
    ensures forall n :: n in rest <==> n in sorted && Named(fqdns, n)
    ensures Ascending(rest, ByName())
    ensures forall n :: n in own + rest ==> n in fqdns
    ensures out == ServiceNames(own + rest, fqdns)
  {
    out, rest := first, [];
    var seen := taken;
    assert own + rest == own;
    for i := 0 to |sorted|
      invariant forall n :: n in rest <==> n in sorted[..i] && Named(fqdns, n)
      invariant forall n :: n in seen <==> n in taken || n in rest
      invariant Ascending(rest, ByName())
      invariant out == ServiceNames(own + rest, fqdns)
    {
      var name := sorted[i];
      assert sorted[..i + 1] == sorted[..i] + [name];
      NotBefore(sorted, i);
      if Named(fqdns, name) {
        SnocAscends(sorted, i, rest);
        assert own + (rest + [name]) == own + rest + [name];
        rest := rest + [name];
      }
      seen, out := Add(name, fqdns, seen, out);
    }
    assert sorted[..|sorted|] == sorted;
  }

  lemma SnocAscends(sorted: seq<string>, i: nat, rest: seq<string>)
    requires Ascending(sorted, ByName()) && Ascending(rest, ByName()) && i < |sorted|
    requires forall n :: n in rest ==> n in sorted[..i]
    ensures Ascending(rest + [sorted[i]], ByName())
  {
    forall k | 0 <= k < |rest| ensures Less(rest[k], sorted[i]) {
      assert rest[k] in sorted[..i];
      var m :| 0 <= m < i && sorted[m] == rest[k];
      assert ByName()(sorted[m], sorted[i]);
    }
  }

  /** The service names reported for an Instance. An annotation that is absent or does not decode reports none. */
  method ExtractServiceFqdns(containers: seq<string>, annotation: Option<map<string, string>>)
    returns (out: seq<string>)
    ensures annotation.None? ==> out == []
    ensures annotation.Some? ==> IsExtraction(out, containers, annotation.value)
  {
    if annotation.None? {
      return [];
    }
    var fqdns := annotation.value;
    var seen, first;
    ghost var own, rest;
    seen, first, own := AddContainers(containers, fqdns);
    var remaining := Remaining(fqdns, seen);
    SortSorts(remaining);
    out, rest := AddSorted(Sort(remaining), fqdns, seen, first, own);
    assert IsOrder(own, rest, containers, fqdns);
  }

  lemma NotBefore(s: seq<string>, i: nat)
    requires Ascending(s, ByName()) && i < |s|
    ensures s[i] !in s[..i]
  {
    forall k | 0 <= k < i ensures s[k] != s[i] {
      assert ByName()(s[k], s[i]);
      LessIsTotal(s[k], s[i]);
    }
  }
}
