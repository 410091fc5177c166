/**
 * A Ruby Hash of request arguments as an ordered list of (key, value) entries
 * with distinct keys; `None` is a nil value. The two transformations the
 * current signer applies before signing, `reject { |_, v| v.nil? }` and
 * `sort.to_h`, and what they guarantee.
 */
module KeyValue {
  import opened Wrappers
  import opened Text

  /** An argument value, by its text (the clients send strings and numbers). */
  type Value = string

  type Entry = (string, Option<Value>)

  /** A hash in insertion order. */
  type Args = seq<Entry>

  /** Hash keys are distinct. */
  predicate DistinctKeys(a: Args) {
    forall i, j :: 0 <= i < j < |a| ==> a[i].0 != a[j].0
  }

  predicate AllPresent(a: Args) {
    forall i :: 0 <= i < |a| ==> a[i].1.Some?
  }

  /** `reject { |_, v| v.nil? }`: the entries whose value is not nil, in their original order. */
  function NonNil(a: Args): (r: Args)
    ensures |r| <= |a|
    ensures AllPresent(r)
    ensures forall e :: e in r <==> e in a && e.1.Some?
  {
    if |a| == 0 then [] else (if a[0].1.Some? then [a[0]] else []) + NonNil(a[1..])
  }

  lemma {:induction false} NonNilAppend(a: Args, b: Args)
    ensures NonNil(a + b) == NonNil(a) + NonNil(b)
  {
    if |a| == 0 {
      assert a + b == b;
    } else {
      assert (a + b)[1..] == a[1..] + b;
      NonNilAppend(a[1..], b);
    }
  }

  /** Rejecting nils keeps keys distinct. */
  lemma {:induction false} NonNilDistinct(a: Args)
    requires DistinctKeys(a)
    ensures DistinctKeys(NonNil(a))
  {
    if |a| > 0 {
      NonNilDistinct(a[1..]);
      var rest := NonNil(a[1..]);
      forall j | 0 <= j < |rest| ensures rest[j].0 != a[0].0 {
        assert rest[j] in a[1..];
      }
    }
  }

  /** A hash with no nil value is left as it is. */
  lemma {:induction false} NonNilIdentity(a: Args)
    requires AllPresent(a)
    ensures NonNil(a) == a
  {
    if |a| > 0 {
      NonNilIdentity(a[1..]);
      assert a == [a[0]] + a[1..];
    }
  }

  /** Nothing is left exactly when every value is nil. */
  lemma NonNilEmpty(a: Args)
    ensures |NonNil(a)| == 0 <==> forall i :: 0 <= i < |a| ==> a[i].1.None?
  {
    if |NonNil(a)| > 0 {
      var e := NonNil(a)[0];
      assert e in NonNil(a);
      var i :| 0 <= i < |a| && a[i] == e;
      assert a[i].1.Some?;
    }
  }

  /** Keys strictly increasing in String#<=> order. */
  predicate StrictlySorted(a: Args) {
    forall i, j :: 0 <= i < j < |a| ==> Less(a[i].0, a[j].0)
  }

  /** Insertion of one entry into a list sorted by key. */
  function Insert(e: Entry, s: Args): (r: Args)
    ensures multiset(r) == multiset(s) + multiset{e}
  {
    if |s| == 0 then [e]
    else if Less(s[0].0, e.0) then
      assert s == [s[0]] + s[1..];
      [s[0]] + Insert(e, s[1..])
    else [e] + s
  }

  lemma {:induction false} InsertSorted(e: Entry, s: Args)
    requires StrictlySorted(s)
    requires forall i :: 0 <= i < |s| ==> s[i].0 != e.0
    ensures StrictlySorted(Insert(e, s))
  {
    if |s| > 0 {
      if Less(s[0].0, e.0) {
        var tail := Insert(e, s[1..]);
        InsertSorted(e, s[1..]);
        forall j | 0 <= j < |tail| ensures Less(s[0].0, tail[j].0) {
          assert tail[j] in multiset(tail);
          if tail[j] != e {
            var k :| 0 <= k < |s[1..]| && s[1..][k] == tail[j];
            assert s[k + 1] == tail[j];
          }
        }
      } else {
        LessTotal(s[0].0, e.0);
        forall j | 0 <= j < |s| ensures Less(e.0, s[j].0) {
          if j > 0 {
            LessTransitive(e.0, s[0].0, s[j].0);
          }
        }
      }
    }
  }

  /** Enumerable#sort on entries with distinct keys: order by key. */
  function SortByKey(a: Args): (r: Args)
    ensures multiset(r) == multiset(a)
  {
    if |a| == 0 then []
    else
      assert a == [a[0]] + a[1..];
      Insert(a[0], SortByKey(a[1..]))
  }

  lemma {:induction false} SortByKeySorted(a: Args)
    requires DistinctKeys(a)
    ensures StrictlySorted(SortByKey(a))
  {
    if |a| > 0 {
      var rest := SortByKey(a[1..]);
      SortByKeySorted(a[1..]);
      forall i | 0 <= i < |rest| ensures rest[i].0 != a[0].0 {
        assert rest[i] in multiset(a[1..]);
      }
      InsertSorted(a[0], rest);
    }
  }

  /** The head of a strictly sorted list comes first: every other entry has a greater key. */
  lemma HeadIsLeast(x: Args, e: Entry)
    requires StrictlySorted(x) && e in x
    ensures x[0] == e || Less(x[0].0, e.0)
  {
    var j :| 0 <= j < |x| && x[j] == e;
  }

  /** A list sorted strictly by key is determined by its entries: every correct sort gives the same list. */
  lemma {:induction false} SortedUnique(x: Args, y: Args)
    requires StrictlySorted(x) && StrictlySorted(y)
    requires multiset(x) == multiset(y)
    ensures x == y
    decreases |x|
  {
    if |x| == 0 {
      assert |multiset(y)| == 0;
    } else {
      assert |y| > 0 by { assert x[0] in multiset(y); }
      assert x[0] in y && y[0] in x by { assert x[0] in multiset(y) && y[0] in multiset(x); }
      HeadIsLeast(y, x[0]);
      HeadIsLeast(x, y[0]);
      if x[0] != y[0] {
        LessTransitive(x[0].0, y[0].0, x[0].0);
        LessIrreflexive(x[0].0);
      }
      var x', y' := x[1..], y[1..];
      assert x == [x[0]] + x' && y == [y[0]] + y';
      assert x[0] == y[0];
      assert multiset(x) == multiset([x[0]]) + multiset(x');
      assert multiset(y) == multiset([x[0]]) + multiset(y');
      assert multiset(x') == multiset(x) - multiset([x[0]]);
      assert StrictlySorted(x') && StrictlySorted(y');
      SortedUnique(x', y');
    }
  }

  /** `args.reject { |_, v| v.nil? }.sort.to_h`: what the current signer signs and sends. */
  function SortedArgs(a: Args): Args
  {
    SortByKey(NonNil(a))
  }

  /** The sorted arguments are exactly the caller's non-nil entries, strictly ordered by key. */
  lemma SortedArgsSpec(a: Args)
    requires DistinctKeys(a)
    ensures StrictlySorted(SortedArgs(a))
    ensures forall e :: e in SortedArgs(a) <==> e in a && e.1.Some?
    ensures |SortedArgs(a)| == |NonNil(a)|
    ensures |SortedArgs(a)| == 0 <==> forall i :: 0 <= i < |a| ==> a[i].1.None?
  {
    NonNilDistinct(a);
    SortByKeySorted(NonNil(a));
    assert forall e :: e in SortedArgs(a) <==> e in multiset(NonNil(a));
    assert |SortedArgs(a)| == |multiset(SortedArgs(a))| == |multiset(NonNil(a))| == |NonNil(a)|;
    NonNilEmpty(a);
  }

  /** Any strictly sorted arrangement of the non-nil entries is SortedArgs. */
  lemma SortedArgsUnique(a: Args, s: Args)
    requires DistinctKeys(a)
    requires StrictlySorted(s) && multiset(s) == multiset(NonNil(a))
    ensures s == SortedArgs(a)
  {
    SortedArgsSpec(a);
    SortedUnique(s, SortedArgs(a));
  }

  /** Filtering and sorting a second time changes nothing. */
  lemma SortedArgsIdempotent(a: Args)
    requires DistinctKeys(a)
    ensures DistinctKeys(SortedArgs(a))
    ensures SortedArgs(SortedArgs(a)) == SortedArgs(a)
  {
    var s := SortedArgs(a);
    SortedArgsSpec(a);
    forall i, j | 0 <= i < j < |s| ensures s[i].0 != s[j].0 {
      LessIrreflexive(s[i].0);
    }
    assert AllPresent(s) by {
      forall i | 0 <= i < |s| ensures s[i].1.Some? {
        assert s[i] in s;
      }
    }
    NonNilIdentity(s);
    SortedArgsUnique(s, s);
  }
}
