/**
 * Hash#to_parameter_string: the query string the legacy signer puts after
 * '?'. Each entry with a non-nil value becomes `key=url_encode(value)`, in the
 * hash's own order, and the parts are joined with '&'. String#url_encode is a
 * foreign call and comes in as the parameter `urlEncode`.
 */
module ParameterStrings {
  import opened Wrappers
  import opened Text
  import opened KeyValue

  /** One part of the string: `k.to_s + '=' + v.url_encode`. */
  function Part(key: string, value: Value, urlEncode: Value -> string): string
  {
    key + "=" + urlEncode(value)
  }

  /** What one entry contributes: a part when its value is not nil, nothing otherwise. */
  function EntryParts(e: Entry, urlEncode: Value -> string): seq<string>
  {
    match e.1
    case Some(v) => [Part(e.0, v, urlEncode)]
    case None => []
  }

  /** The parts, one per non-nil entry, in iteration order. */
  function Parts(h: Args, urlEncode: Value -> string): seq<string>
  {
    if |h| == 0 then [] else EntryParts(h[0], urlEncode) + Parts(h[1..], urlEncode)
  }

  /** What to_parameter_string returns for `h`. */
  function ParameterString(h: Args, urlEncode: Value -> string): string
  {
    Join(Parts(h, urlEncode), "&")
  }

  lemma {:induction false} PartsAppend(a: Args, b: Args, urlEncode: Value -> string)
    ensures Parts(a + b, urlEncode) == Parts(a, urlEncode) + Parts(b, urlEncode)
  {
    if |a| == 0 {
      assert a + b == b;
    } else {
      assert (a + b)[0] == a[0] && (a + b)[1..] == a[1..] + b;
      PartsAppend(a[1..], b, urlEncode);
      calc {
        Parts(a + b, urlEncode);
        EntryParts(a[0], urlEncode) + Parts(a[1..] + b, urlEncode);
        EntryParts(a[0], urlEncode) + (Parts(a[1..], urlEncode) + Parts(b, urlEncode));
        (EntryParts(a[0], urlEncode) + Parts(a[1..], urlEncode)) + Parts(b, urlEncode);
      }
    }
  }

  /**
   * The method as the source writes it: walk the hash, append a part for each
   * non-nil value to an array, then join the array with '&'. The hash is only
   * read.
   */
  method ToParameterString(h: Args, urlEncode: Value -> string) returns (s: string)
    ensures s == ParameterString(h, urlEncode)
  {
    var parts: seq<string> := [];
    for i := 0 to |h|
      invariant parts == Parts(h[..i], urlEncode)
    {
      var (k, v) := h[i];
      PartsAppend(h[..i], [h[i]], urlEncode);
      assert h[..i + 1] == h[..i] + [h[i]];
      if v.Some? {
        parts := parts + [Part(k, v.value, urlEncode)];
      }
    }
    assert h[..|h|] == h;
    s := Join(parts, "&");
  }

  /** Part i of the string comes from the i-th non-nil entry: insertion order, no sorting, `key=url_encode(value)`. */
  lemma {:induction false} PartsAreNonNilEntries(h: Args, urlEncode: Value -> string)
    ensures |Parts(h, urlEncode)| == |NonNil(h)|
    ensures forall i :: 0 <= i < |NonNil(h)| ==>
      Parts(h, urlEncode)[i] == NonNil(h)[i].0 + "=" + urlEncode(NonNil(h)[i].1.value)
  {
    if |h| > 0 {
      PartsAreNonNilEntries(h[1..], urlEncode);
    }
  }

  /** Nil entries contribute nothing. */
  lemma {:induction false} NilsIgnored(h: Args, urlEncode: Value -> string)
    ensures ParameterString(h, urlEncode) == ParameterString(NonNil(h), urlEncode)
  {
    PartsNilsIgnored(h, urlEncode);
  }

  lemma {:induction false} PartsNilsIgnored(h: Args, urlEncode: Value -> string)
    ensures Parts(h, urlEncode) == Parts(NonNil(h), urlEncode)
  {
    if |h| > 0 {
      PartsNilsIgnored(h[1..], urlEncode);
      var head: Args := if h[0].1.Some? then [h[0]] else [];
      assert NonNil(h) == head + NonNil(h[1..]);
      PartsAppend(head, NonNil(h[1..]), urlEncode);
      assert Parts(head, urlEncode) == EntryParts(h[0], urlEncode) by {
        if h[0].1.Some? {
          assert head[1..] == [];
        }
      }
    }
  }

  /** An empty hash, or one whose values are all nil, gives the empty string. */
  lemma {:induction false} AllNilIsEmpty(h: Args, urlEncode: Value -> string)
    requires forall i :: 0 <= i < |h| ==> h[i].1.None?
    ensures ParameterString(h, urlEncode) == ""
  {
    PartsAreNonNilEntries(h, urlEncode);
    NonNilEmpty(h);
  }

  /** No key and no encoded value contains '&'. */
  predicate AmpersandFree(h: Args, urlEncode: Value -> string) {
    forall i :: 0 <= i < |h| ==>
      '&' !in h[i].0 && (h[i].1.Some? ==> '&' !in urlEncode(h[i].1.value))
  }

  /**
   * When keys and encoded values hold no '&', the string is the parts joined
   * by single separators: n non-nil entries give n - 1 separators, none at
   * either end, and splitting at '&' gives the parts back.
   */
  lemma Separators(h: Args, urlEncode: Value -> string)
    requires AmpersandFree(h, urlEncode)
    requires |NonNil(h)| > 0
    ensures var s := ParameterString(h, urlEncode);
      && Count('&', s) == |NonNil(h)| - 1
      && |s| > 0 && s[0] != '&' && s[|s| - 1] != '&'
      && Split(s, '&') == Parts(h, urlEncode)
  {
    var parts := Parts(h, urlEncode);
    PartsAreNonNilEntries(h, urlEncode);
    forall i | 0 <= i < |parts|
      ensures '&' !in parts[i] && |parts[i]| > 0 && parts[i][0] != '&' && parts[i][|parts[i]| - 1] != '&'
    {
      var e := NonNil(h)[i];
      assert e in NonNil(h);
      var j :| 0 <= j < |h| && h[j] == e;
      assert parts[i] == e.0 + "=" + urlEncode(e.1.value);
      assert forall x :: x in parts[i] ==> x in e.0 || x == '=' || x in urlEncode(e.1.value);
      if |e.0| > 0 {
        assert parts[i][0] == e.0[0];
      }
      if |urlEncode(e.1.value)| > 0 {
        assert parts[i][|parts[i]| - 1] == urlEncode(e.1.value)[|urlEncode(e.1.value)| - 1];
      }
    }
    assert "&" == ['&'];
    JoinCount(parts, '&');
    SplitJoin(parts, '&');
    JoinEnds(parts, "&");
  }
}
