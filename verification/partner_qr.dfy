/**
  The partner-visit QR payload `KT-PARTNER|<id>|<timestamp>`, as parsed by the
  two revisions of the scanner component: the older one splits the raw text as
  it is, the newer one trims surrounding whitespace first. `Number(...)` and
  `Date.now()` are parameters.
 */
module PartnerQR {
  import opened Wrappers
  import opened Js

  const Sep: char := '|'
  const Namespace: string := "KT-PARTNER"

  /** The object `parseQR` returns when it does not return null. */
  datatype Payload = Payload(ns: string, partnerId: string, ts: Number)

  /** Number of separators in s. */
  function SepCount(s: string): nat
  {
    if s == [] then 0 else (if s[0] == Sep then 1 else 0) + SepCount(s[1..])
  }

  /** The fields, joined with the separator between consecutive ones. */
  function Join(fields: seq<string>): string
    requires |fields| >= 1
  {
    if |fields| == 1 then fields[0] else fields[0] + [Sep] + Join(fields[1..])
  }

  /** Splitting on the separator: the maximal separator-free pieces of s, one more than there
      are separators; joining them back gives s. */
  function Split(s: string): (fields: seq<string>)
    ensures |fields| == SepCount(s) + 1
    ensures forall i :: 0 <= i < |fields| ==> Sep !in fields[i]
    ensures Join(fields) == s
  {
    if s == [] then [""]
    else
      var rest := Split(s[1..]);
      if s[0] == Sep then
        assert ([""] + rest)[1..] == rest;
        [""] + rest
      else
        var fields := [[s[0]] + rest[0]] + rest[1..];
        assert fields[1..] == rest[1..];
        assert |rest| > 1 ==> Join(rest) == rest[0] + [Sep] + Join(rest[1..]);
        fields
  }

  /** The payload a partner's QR code carries. */
  function Encode(id: string, ts: string): string
  {
    Namespace + [Sep] + id + [Sep] + ts
  }

  /** The characters `String.prototype.trim` removes: ECMAScript WhiteSpace and LineTerminator. */
  predicate IsJsSpace(c: char)
  {
    || c == '\t' || c == '\n' || c == '\U{B}' || c == '\U{C}' || c == '\r' || c == ' '
    || c == '\U{A0}' || c == '\U{1680}' || ('\U{2000}' <= c <= '\U{200A}')
    || c == '\U{2028}' || c == '\U{2029}' || c == '\U{202F}' || c == '\U{205F}'
    || c == '\U{3000}' || c == '\U{FEFF}'
  }

  predicate AllSpace(s: string)
  {
    forall i :: 0 <= i < |s| ==> IsJsSpace(s[i])
  }

  /** Removes leading whitespace: the result is the suffix of s after its whitespace prefix. */
  function TrimStart(s: string): (r: string)
    ensures |r| <= |s| && r == s[|s| - |r|..]
    ensures AllSpace(s[..|s| - |r|])
    ensures r == [] || !IsJsSpace(r[0])
  {
    if s != [] && IsJsSpace(s[0]) then
      var r := TrimStart(s[1..]);
      SpacePrefixExtends(s, r);
      r
    else s
  }

  /** What `TrimStart` promises of the rest of s carries over to s when its
      first character is whitespace. */
  lemma SpacePrefixExtends(s: string, r: string)
    requires s != [] && IsJsSpace(s[0])
    requires |r| <= |s[1..]| && r == s[1..][|s[1..]| - |r|..] && AllSpace(s[1..][..|s[1..]| - |r|])
    ensures r == s[|s| - |r|..] && AllSpace(s[..|s| - |r|])
  {
    var n := |s| - |r|;
    assert s[1..][n - 1..] == s[n..];
    forall i | 0 <= i < n
      ensures IsJsSpace(s[i])
    {
      if i > 0 {
        assert s[i] == s[1..][..n - 1][i - 1];
      }
    }
  }

  /** Removes trailing whitespace: the result is the prefix of s before its whitespace suffix. */
  function TrimEnd(s: string): (r: string)
    ensures |r| <= |s| && r == s[..|r|]
    ensures AllSpace(s[|r|..])
    ensures r == [] || !IsJsSpace(r[|r| - 1])
  {
    if s != [] && IsJsSpace(s[|s| - 1]) then
      var r := TrimEnd(s[..|s| - 1]);
      SpaceSuffixExtends(s, r);
      r
    else s
  }

  /** What `TrimEnd` promises of all but the last character of s carries over
      to s when that last character is whitespace. */
  lemma SpaceSuffixExtends(s: string, r: string)
    requires s != [] && IsJsSpace(s[|s| - 1])
    requires |r| <= |s[..|s| - 1]| && r == s[..|s| - 1][..|r|] && AllSpace(s[..|s| - 1][|r|..])
    ensures r == s[..|r|] && AllSpace(s[|r|..])
  {
    var m := |r|;
    assert s[..|s| - 1][..m] == s[..m];
    forall i | m <= i < |s|
      ensures IsJsSpace(s[i])
    {
      if i < |s| - 1 {
        assert s[i] == s[..|s| - 1][m..][i - m];
      }
    }
  }

  /** `s.trim()`: neither end of the result is whitespace. */
  function Trim(s: string): (r: string)
    ensures r == [] || (!IsJsSpace(r[0]) && !IsJsSpace(r[|r| - 1]))
  {
    TrimEnd(TrimStart(s))
  }

  /** `parseQR` of src/components/QRScanner.js: no trimming. */
  function ParseUntrimmed(raw: string, number: string -> Number, now: nat): (r: Option<Payload>)
    ensures SepCount(raw) < 2 ==> r == None
    ensures r.Some? ==> r.value.ns == Namespace && Sep !in r.value.partnerId
  {
    var parts := Split(raw);
    if |parts| < 3 then None
    else if parts[0] != Namespace then None
    else Some(Payload(parts[0], parts[1], OrElse(number(parts[2]), Finite(now as real))))
  }

  /** `parseQR` of src/components/QRScanner.tsx: trim, then the same parsing. */
  function ParseTrimmed(raw: string, number: string -> Number, now: nat): (r: Option<Payload>)
    ensures SepCount(Trim(raw)) < 2 ==> r == None
    ensures r.Some? ==> r.value.ns == Namespace && Sep !in r.value.partnerId
  {
    ParseUntrimmed(Trim(raw), number, now)
  }

  // ---------------------------------------------------------------------------
  // Sequence facts, kept apart so that they are proved without the trim functions in view

  lemma SplitAt(s: string, k: nat)
    requires k <= |s|
    ensures s == s[..k] + s[k..]
  {
  }

  lemma Assoc(a: string, b: string, c: string)
    ensures a + (b + c) == a + b + c
  {
  }

  // ---------------------------------------------------------------------------
  // Splitting and joining

  lemma {:induction false} SplitNoSep(a: string)
    requires Sep !in a
    ensures Split(a) == [a]
  {
    if a != [] {
      SplitNoSep(a[1..]);
    }
  }

  /** A separator-free first field is split off exactly. */
  lemma {:induction false} SplitCons(a: string, b: string)
    requires Sep !in a
    ensures Split(a + [Sep] + b) == [a] + Split(b)
  {
    var s := a + [Sep] + b;
    if a == [] {
      assert s[1..] == b;
    } else {
      assert s[1..] == a[1..] + [Sep] + b;
      SplitCons(a[1..], b);
      assert [a[0]] + a[1..] == a;
    }
  }

  /** Splitting undoes joining separator-free fields. */
  lemma {:induction false} SplitJoin(fields: seq<string>)
    requires |fields| >= 1
    requires forall i :: 0 <= i < |fields| ==> Sep !in fields[i]
    ensures Split(Join(fields)) == fields
  {
    if |fields| == 1 {
      SplitNoSep(fields[0]);
    } else {
      SplitJoin(fields[1..]);
      SplitCons(fields[0], Join(fields[1..]));
      assert [fields[0]] + fields[1..] == fields;
    }
  }

  // ---------------------------------------------------------------------------
  // Trimming

  lemma {:induction false} TrimStartSkipsSpace(ws: string, t: string)
    requires AllSpace(ws)
    ensures TrimStart(ws + t) == TrimStart(t)
  {
    if ws == [] {
      assert ws + t == t;
    } else {
      assert (ws + t)[1..] == ws[1..] + t;
      TrimStartSkipsSpace(ws[1..], t);
    }
  }

  lemma {:induction false} TrimEndSkipsSpace(t: string, ws: string)
    requires AllSpace(ws)
    ensures TrimEnd(t + ws) == TrimEnd(t)
  {
    if ws == [] {
      assert t + ws == t;
    } else {
      var u := t + ws;
      assert u[..|u| - 1] == t + ws[..|ws| - 1];
      TrimEndSkipsSpace(t, ws[..|ws| - 1]);
    }
  }

  lemma {:induction false} TrimStartAppend(s: string, t: string)
    requires TrimStart(s) != []
    ensures TrimStart(s + t) == TrimStart(s) + t
  {
    assert s != [];
    if IsJsSpace(s[0]) {
      assert (s + t)[1..] == s[1..] + t;
      TrimStartAppend(s[1..], t);
    }
  }

  /** Whitespace around the whole text does not change the trimmed text. */
  lemma TrimIgnoresSurroundingSpace(ws1: string, s: string, ws2: string)
    requires AllSpace(ws1) && AllSpace(ws2)
    ensures Trim(ws1 + s + ws2) == Trim(s)
  {
    Assoc(ws1, s, ws2);
    TrimStartSkipsSpace(ws1, s + ws2);
    if TrimStart(s) == [] {
      assert s[..|s|] == s;
      TrimStartSkipsSpace(s, ws2);
      TrimStartSkipsSpace(ws2, []);
      assert ws2 + [] == ws2;
    } else {
      TrimStartAppend(s, ws2);
      TrimEndSkipsSpace(TrimStart(s), ws2);
    }
  }

  /** Text without whitespace at either end is its own trim. */
  lemma TrimKeepsUnpadded(s: string)
    requires s == [] || (!IsJsSpace(s[0]) && !IsJsSpace(s[|s| - 1]))
    ensures Trim(s) == s
  {
  }

  // ---------------------------------------------------------------------------
  // Parsing

  /** The untrimmed parser accepts exactly the texts `KT-PARTNER|<id>|<rest>` with a
      separator-free id. */
  lemma ParseUntrimmedAcceptsExactlyEncoded(raw: string, number: string -> Number, now: nat)
    ensures ParseUntrimmed(raw, number, now).Some? <==>
            exists id, ts :: Sep !in id && raw == Encode(id, ts)
  {
    var parts := Split(raw);
    if ParseUntrimmed(raw, number, now).Some? {
      var ts := Join(parts[2..]);
      assert Join(parts[1..]) == parts[1] + [Sep] + ts by {
        assert parts[1..][1..] == parts[2..];
      }
      assert raw == Encode(parts[1], ts);
    }
    if exists id, ts :: Sep !in id && raw == Encode(id, ts) {
      var id, ts :| Sep !in id && raw == Encode(id, ts);
      ParseUntrimmedRoundTrip(id, ts, number, now);
    }
  }

  /** An encoded payload splits into the namespace, the id and the pieces of the rest. */
  lemma SplitEncoded(id: string, ts: string)
    requires Sep !in id
    ensures Split(Encode(id, ts)) == [Namespace, id] + Split(ts)
  {
    var rest := id + [Sep] + ts;
    assert Encode(id, ts) == Namespace + [Sep] + rest;
    assert Sep !in Namespace;
    SplitCons(Namespace, rest);
    SplitCons(id, ts);
  }

  /** Round trip: the id of an encoded payload comes back, with the time stamp
      read from the first field of the rest. */
  lemma ParseUntrimmedRoundTrip(id: string, ts: string, number: string -> Number, now: nat)
    requires Sep !in id
    ensures ParseUntrimmed(Encode(id, ts), number, now)
            == Some(Payload(Namespace, id, OrElse(number(Split(ts)[0]), Finite(now as real))))
    ensures Sep !in ts ==>
            ParseUntrimmed(Encode(id, ts), number, now)
            == Some(Payload(Namespace, id, OrElse(number(ts), Finite(now as real))))
  {
    SplitEncoded(id, ts);
    if Sep !in ts {
      SplitNoSep(ts);
    }
  }

  /** The trimmed parser ignores whitespace around the payload. */
  lemma ParseTrimmedIgnoresSurroundingSpace(ws1: string, raw: string, ws2: string, number: string -> Number, now: nat)
    requires AllSpace(ws1) && AllSpace(ws2)
    ensures ParseTrimmed(ws1 + raw + ws2, number, now) == ParseTrimmed(raw, number, now)
  {
    TrimIgnoresSurroundingSpace(ws1, raw, ws2);
  }

  /** Without whitespace at either end, the two revisions agree. */
  lemma RevisionsAgreeOnUnpadded(raw: string, number: string -> Number, now: nat)
    requires raw == [] || (!IsJsSpace(raw[0]) && !IsJsSpace(raw[|raw| - 1]))
    ensures ParseTrimmed(raw, number, now) == ParseUntrimmed(raw, number, now)
  {
    TrimKeepsUnpadded(raw);
  }

  /** The untrimmed parser rejects any text that starts with whitespace. */
  lemma ParseUntrimmedRejectsLeadingSpace(raw: string, number: string -> Number, now: nat)
    requires raw != [] && IsJsSpace(raw[0])
    ensures ParseUntrimmed(raw, number, now) == None
  {
    assert Split(raw)[0] == [raw[0]] + Split(raw[1..])[0];
    assert Namespace[0] == 'K';
  }

  /** The trimmed parser accepts exactly the texts made of whitespace, then
      `KT-PARTNER|<id>|<rest>` with a separator-free id. */
  lemma ParseTrimmedAcceptsExactlyEncoded(raw: string, number: string -> Number, now: nat)
    ensures ParseTrimmed(raw, number, now).Some? <==>
            exists ws, id, ts :: AllSpace(ws) && Sep !in id && raw == ws + Encode(id, ts)
  {
    var t := Trim(raw);
    ParseUntrimmedAcceptsExactlyEncoded(t, number, now);
    if ParseTrimmed(raw, number, now).Some? {
      var id, ts :| Sep !in id && t == Encode(id, ts);
      var ws, rest := TrimmedEncodedIsPadded(raw, id, ts);
    }
    if exists ws, id, ts :: AllSpace(ws) && Sep !in id && raw == ws + Encode(id, ts) {
      var ws, id, ts :| AllSpace(ws) && Sep !in id && raw == ws + Encode(id, ts);
      TrimPaddedEncoded(ws, id, ts);
      ParseUntrimmedRoundTrip(id, TrimEnd(ts), number, now);
    }
  }

  /** Text whose trim is an encoded payload is that payload with whitespace
      before it and more of the rest after it. */
  lemma TrimmedEncodedIsPadded(raw: string, id: string, ts: string) returns (ws: string, rest: string)
    requires Trim(raw) == Encode(id, ts)
    ensures AllSpace(ws) && raw == ws + Encode(id, rest)
  {
    var tail;
    ws, tail := TrimRemovesOnlySpace(raw);
    rest := ts + tail;
    EncodeAppend(ws, id, ts, tail);
  }

  lemma EncodeAppend(ws: string, id: string, ts: string, tail: string)
    ensures ws + Encode(id, ts) + tail == ws + Encode(id, ts + tail)
  {
  }

  /** Trimming removes only whitespace, from the two ends. */
  lemma TrimRemovesOnlySpace(s: string) returns (ws1: string, ws2: string)
    ensures AllSpace(ws1) && AllSpace(ws2)
    ensures s == ws1 + Trim(s) + ws2
  {
    var u := TrimStart(s);
    var t := TrimEnd(u);
    ws1 := s[..|s| - |u|];
    ws2 := u[|t|..];
    SplitAt(s, |s| - |u|);
    SplitAt(u, |t|);
    Assoc(ws1, t, ws2);
  }

  /** Round trip through the trimmed parser: the id of an encoded payload comes
      back, with the time stamp read from the rest once its trailing whitespace
      is gone. */
  lemma ParseTrimmedRoundTrip(id: string, ts: string, number: string -> Number, now: nat)
    requires Sep !in id
    ensures ParseTrimmed(Encode(id, ts), number, now)
            == Some(Payload(Namespace, id, OrElse(number(Split(TrimEnd(ts))[0]), Finite(now as real))))
    ensures Sep !in ts ==>
            ParseTrimmed(Encode(id, ts), number, now)
            == Some(Payload(Namespace, id, OrElse(number(TrimEnd(ts)), Finite(now as real))))
  {
    assert [] + Encode(id, ts) == Encode(id, ts);
    TrimPaddedEncoded([], id, ts);
    var r := TrimEnd(ts);
    ParseUntrimmedRoundTrip(id, r, number, now);
    if Sep !in ts {
      assert Sep !in r by {
        assert r == ts[..|r|];
      }
    }
  }

  /** Leading whitespace and the trailing whitespace of the rest are all that
      trimming removes from an encoded payload. */
  lemma TrimPaddedEncoded(ws: string, id: string, ts: string)
    requires AllSpace(ws)
    ensures Trim(ws + Encode(id, ts)) == Encode(id, TrimEnd(ts))
  {
    var front := Namespace + [Sep] + id + [Sep];
    var e := Encode(id, ts);
    assert e == front + ts;
    TrimStartSkipsSpace(ws, e);
    assert e[0] == 'K' by {
      assert front[0] == Namespace[0];
    }
    TrimStartNonSpace(e);
    TrimEndAfter(front, ts);
  }

  /** Text that starts with a non-blank character is its own leading trim. */
  lemma TrimStartNonSpace(s: string)
    requires s != [] && !IsJsSpace(s[0])
    ensures TrimStart(s) == s
  {
  }

  /** Text that ends with a non-blank character is its own trailing trim. */
  lemma TrimEndNonSpace(s: string)
    requires s != [] && !IsJsSpace(s[|s| - 1])
    ensures TrimEnd(s) == s
  {
  }

  /** Trailing trim after a text that ends with a non-blank character only
      touches what follows it. */
  lemma TrimEndAfter(front: string, t: string)
    requires front != [] && !IsJsSpace(front[|front| - 1])
    ensures TrimEnd(front + t) == front + TrimEnd(t)
  {
    var r := TrimEnd(t);
    var tail := t[|r|..];
    SplitAt(t, |r|);
    Assoc(front, r, tail);
    TrimEndSkipsSpace(front + r, tail);
    var fr := front + r;
    assert fr[|fr| - 1] == if r == [] then front[|front| - 1] else r[|r| - 1];
    TrimEndNonSpace(fr);
  }

  /** A leading space separates the revisions: the newer one still accepts an
      encoded payload that the older one rejects. */
  lemma LeadingSpaceSeparatesRevisions(id: string, ts: string, number: string -> Number, now: nat)
    requires Sep !in id
    requires ts == [] || !IsJsSpace(ts[|ts| - 1])
    ensures ParseUntrimmed([' '] + Encode(id, ts), number, now) == None
    ensures ParseTrimmed([' '] + Encode(id, ts), number, now) == ParseUntrimmed(Encode(id, ts), number, now)
    ensures ParseTrimmed([' '] + Encode(id, ts), number, now).Some?
  {
    var e := Encode(id, ts);
    ParseUntrimmedRejectsLeadingSpace([' '] + e, number, now);
    TrimPaddedEncoded([' '], id, ts);
    if ts != [] {
      TrimEndNonSpace(ts);
    }
    ParseUntrimmedRoundTrip(id, ts, number, now);
  }

  /** An empty partner id is accepted: `KT-PARTNER||<rest>` parses with partner id "". */
  lemma EmptyPartnerIdAccepted(ts: string, number: string -> Number, now: nat)
    ensures ParseTrimmed(Encode("", ts), number, now).Some?
    ensures ParseTrimmed(Encode("", ts), number, now).value.partnerId == ""
  {
    ParseTrimmedRoundTrip("", ts, number, now);
  }

  /** The instance `KT-PARTNER||1`. */
  lemma EmptyPartnerIdExample(number: string -> Number, now: nat)
    ensures ParseTrimmed("KT-PARTNER||1", number, now) == Some(Payload("KT-PARTNER", "", OrElse(number("1"), Finite(now as real))))
  {
    assert Encode("", "1") == "KT-PARTNER||1";
    TrimEndNonSpace("1");
    ParseTrimmedRoundTrip("", "1", number, now);
  }
}
