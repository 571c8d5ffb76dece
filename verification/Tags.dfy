/** Tags in their deterministic order, and the two that set a metric's scope. */
module Tags {
  import opened Samplers

  /** The byte-wise order that sort.Strings uses. */
  predicate Before(a: string, b: string) {
    a == "" || (b != "" && (a[0] < b[0] || (a[0] == b[0] && Before(a[1..], b[1..]))))
  }

  lemma {:induction false} BeforeTotal(a: string, b: string)
    ensures Before(a, b) || Before(b, a)
  {
    if a != "" && b != "" && a[0] == b[0] {
      BeforeTotal(a[1..], b[1..]);
    }
  }

  lemma {:induction false} BeforeBoth(a: string, b: string)
    requires Before(a, b) && Before(b, a)
    ensures a == b
  {
    if a != "" && b != "" {
      BeforeBoth(a[1..], b[1..]);
      assert a == [a[0]] + a[1..] && b == [b[0]] + b[1..];
    }
  }

  lemma {:induction false} BeforeTrans(a: string, b: string, c: string)
    requires Before(a, b) && Before(b, c)
    ensures Before(a, c)
  {
    if a != "" && a[0] == b[0] && b[0] == c[0] {
      BeforeTrans(a[1..], b[1..], c[1..]);
    }
  }

  // ---- Sorting

  predicate InOrder(s: seq<string>) {
    forall i, j :: 0 <= i < j < |s| ==> Before(s[i], s[j])
  }

  function Insert(x: string, s: seq<string>): seq<string> {
    if s == [] then [x]
    else if Before(x, s[0]) then [x] + s
    else [s[0]] + Insert(x, s[1..])
  }

  function SortStrings(s: seq<string>): seq<string> {
    if s == [] then [] else Insert(s[0], SortStrings(s[1..]))
  }

  lemma {:induction false} InsertKeeps(x: string, s: seq<string>)
    ensures multiset(Insert(x, s)) == multiset(s) + multiset{x}
  {
    if s != [] {
      assert s == [s[0]] + s[1..];
      if !Before(x, s[0]) {
        InsertKeeps(x, s[1..]);
      }
    }
  }

  lemma {:induction false} InsertOrders(x: string, s: seq<string>)
    requires InOrder(s)
    ensures InOrder(Insert(x, s))
  {
    hide Before;
    if s != [] {
      if Before(x, s[0]) {
        forall i | 0 <= i < |s|
          ensures Before(x, s[i])
        {
          if i > 0 {
            BeforeTrans(x, s[0], s[i]);
          }
        }
      } else {
        BeforeTotal(x, s[0]);
        InsertOrders(x, s[1..]);
        InsertKeeps(x, s[1..]);
        var rest := Insert(x, s[1..]);
        forall i | 0 <= i < |rest|
          ensures Before(s[0], rest[i])
        {
          assert rest[i] in multiset(rest);
          if rest[i] != x {
            assert rest[i] in s[1..];
          }
        }
      }
    }
  }

  /** The sorted list is in order and has the same strings. */
  lemma {:induction false} SortSorts(s: seq<string>)
    ensures InOrder(SortStrings(s)) && multiset(SortStrings(s)) == multiset(s)
  {
    if s != [] {
      SortSorts(s[1..]);
      InsertOrders(s[0], SortStrings(s[1..]));
      InsertKeeps(s[0], SortStrings(s[1..]));
      assert s == [s[0]] + s[1..];
    }
  }

  lemma SameHead(a: seq<string>, b: seq<string>)
    requires InOrder(a) && InOrder(b) && multiset(a) == multiset(b) && a != [] && b != []
    ensures a[0] == b[0]
  {
    hide Before;
    assert a[0] in multiset(b);
    var i :| 0 <= i < |b| && b[i] == a[0];
    assert b[0] in multiset(a);
    var j :| 0 <= j < |a| && a[j] == b[0];
    if i > 0 && j > 0 {
      BeforeBoth(a[0], b[0]);
    }
  }

  lemma TailOf(s: seq<string>)
    requires s != []
    ensures multiset(s[1..]) == multiset(s) - multiset{s[0]}
  {
    assert s == [s[0]] + s[1..];
  }

  /** There is only one sorted list of given strings, so it does not matter how they are sorted. */
  lemma {:induction false} SortedOnce(a: seq<string>, b: seq<string>)
    requires InOrder(a) && InOrder(b) && multiset(a) == multiset(b)
    ensures a == b
  {
    hide Before;
    assert |a| == |multiset(a)| && |b| == |multiset(b)|;
    if a != [] {
      SameHead(a, b);
      TailOf(a);
      TailOf(b);
      SortedOnce(a[1..], b[1..]);
      assert a == [a[0]] + a[1..] && b == [b[0]] + b[1..];
    }
  }

  lemma SortPermuted(a: seq<string>, b: seq<string>)
    requires multiset(a) == multiset(b)
    ensures SortStrings(a) == SortStrings(b)
  {
    hide *;
    SortSorts(a);
    SortSorts(b);
    SortedOnce(SortStrings(a), SortStrings(b));
  }

  // ---- Scope

  const LOCAL_ONLY := "veneurlocalonly"
  const GLOBAL_ONLY := "veneurglobalonly"

  datatype Scoped = Scoped(tags: seq<string>, scope: Scope)

  /** Takes the first scope tag out of a list. */
  function TakeScope(tags: seq<string>): Scoped {
    if tags == [] then Scoped([], MixedScope)
    else if tags[0] == LOCAL_ONLY then Scoped(tags[1..], LocalOnly)
    else if tags[0] == GLOBAL_ONLY then Scoped(tags[1..], GlobalOnly)
    else
      var rest := TakeScope(tags[1..]);
      Scoped([tags[0]] + rest.tags, rest.scope)
  }

  predicate IsScopeTag(tag: string) {
    tag == LOCAL_ONLY || tag == GLOBAL_ONLY
  }

  /** Exactly the first scope tag goes, if there is one. */
  lemma {:induction false} ScopeTaken(tags: seq<string>) returns (i: nat)
    ensures i <= |tags| && forall j :: 0 <= j < i ==> !IsScopeTag(tags[j])
    ensures i == |tags| ==> TakeScope(tags) == Scoped(tags, MixedScope)
    ensures i < |tags| ==> IsScopeTag(tags[i]) && TakeScope(tags).tags == tags[..i] + tags[i + 1..]
                           && TakeScope(tags).scope == if tags[i] == LOCAL_ONLY then LocalOnly else GlobalOnly
  {
    hide LOCAL_ONLY, GLOBAL_ONLY;
    if tags == [] || IsScopeTag(tags[0]) {
      i := 0;
    } else {
      var n := ScopeTaken(tags[1..]);
      i := n + 1;
    }
  }

  /** The loop over the tags that deletes the one it finds and stops. */
  method FindScope(tags: seq<string>) returns (found: Scoped)
    ensures found == TakeScope(tags)
  {
    hide LOCAL_ONLY, GLOBAL_ONLY, TakeScope;
    ghost var first := ScopeTaken(tags);
    for i := 0 to |tags|
      invariant i <= first
    {
      if tags[i] == LOCAL_ONLY {
        return Scoped(tags[..i] + tags[i + 1..], LocalOnly);
      } else if tags[i] == GLOBAL_ONLY {
        return Scoped(tags[..i] + tags[i + 1..], GlobalOnly);
      }
    }
    return Scoped(tags, MixedScope);
  }

  /** In a sorted list the global tag comes first, so it wins. */
  lemma {:induction false} ScopeOfSorted(tags: seq<string>)
    requires InOrder(tags)
    ensures TakeScope(tags).scope
         == if GLOBAL_ONLY in tags then GlobalOnly else if LOCAL_ONLY in tags then LocalOnly else MixedScope
  {
    hide Before, LOCAL_ONLY, GLOBAL_ONLY;
    if tags != [] {
      if tags[0] == LOCAL_ONLY {
        LocalHead(tags);
      }
      GlobalFirst();
      ScopeOfSorted(tags[1..]);
      assert tags == [tags[0]] + tags[1..];
    }
  }

  lemma LocalHead(tags: seq<string>)
    requires InOrder(tags) && tags != [] && tags[0] == LOCAL_ONLY
    ensures GLOBAL_ONLY !in tags
  {
    hide Before, LOCAL_ONLY, GLOBAL_ONLY;
    GlobalFirst();
    if GLOBAL_ONLY in tags {
      var i :| 0 <= i < |tags| && tags[i] == GLOBAL_ONLY;
      BeforeBoth(LOCAL_ONLY, GLOBAL_ONLY);
      assert false;
    }
  }

  lemma GlobalFirst()
    ensures Before(GLOBAL_ONLY, LOCAL_ONLY) && GLOBAL_ONLY != LOCAL_ONLY
  {
    BeforeAt(GLOBAL_ONLY, LOCAL_ONLY, 6);
  }

  lemma {:induction false} BeforeAt(a: string, b: string, i: nat)
    requires i < |a| && i < |b| && a[i] < b[i] && forall j :: 0 <= j < i ==> a[j] == b[j]
    ensures Before(a, b) && a != b
  {
    if i > 0 {
      BeforeAt(a[1..], b[1..], i - 1);
    }
  }

  /** The tags and scope a tag section stands for. */
  function TagsOf(tags: seq<string>): Scoped {
    TakeScope(SortStrings(tags))
  }

  /** The scope that tags ask for: global if they can, else local if they can. */
  function ScopeAsked(written: seq<string>): Scope {
    if "veneurglobalonly" in written then GlobalOnly
    else if "veneurlocalonly" in written then LocalOnly
    else MixedScope
  }

  /** Tags in order that are the written ones, less the one that set the scope. */
  ghost predicate Stand(tags: seq<string>, scope: Scope, written: seq<string>) {
    && InOrder(tags) && scope == ScopeAsked(written)
    && multiset(written) == multiset(tags) + match scope
       case MixedScope => multiset{}
       case LocalOnly => multiset{"veneurlocalonly"}
       case GlobalOnly => multiset{"veneurglobalonly"}
  }

  lemma {:induction false} TagsStand(written: seq<string>)
    ensures Stand(TagsOf(written).tags, TagsOf(written).scope, written)
  {
    hide Before, SortStrings, TakeScope;
    var sorted := SortStrings(written);
    SortSorts(written);
    ScopeOfSorted(sorted);
    SameStrings(written, sorted);
    var i := ScopeTaken(sorted);
    TakenOut(sorted, i);
  }

  lemma TakenOut(s: seq<string>, i: nat)
    ensures i < |s| ==> multiset(s) == multiset(s[..i] + s[i + 1..]) + multiset{s[i]}
  {
    if i < |s| {
      assert s == s[..i] + [s[i]] + s[i + 1..];
    }
  }

  lemma SameStrings(a: seq<string>, b: seq<string>)
    requires multiset(a) == multiset(b)
    ensures forall x :: x in a <==> x in b
  {
    forall x
      ensures x in a <==> x in b
    {
      assert x in a <==> x in multiset(a);
    }
  }

  /** They do not depend on the order in which the tags are written. */
  lemma {:induction false} TagsPermuted(a: seq<string>, b: seq<string>)
    requires multiset(a) == multiset(b)
    ensures TagsOf(a) == TagsOf(b)
  {
    SortPermuted(a, b);
  }
}
