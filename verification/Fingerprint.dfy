/** The request fingerprint: six fields, each followed by a NUL, fed to a hash.

    SHA-256 is taken to be free of collisions, so the encoding stands for its digest. */
module Fingerprint {

  const NUL: char := '\0'

  /** What the loop writes into the hash state. */
  function Encode(parts: seq<string>): string {
    if parts == [] then [] else parts[0] + [NUL] + Encode(parts[1..])
  }

  predicate NulFree(s: string) {
    NUL !in s
  }

  predicate AllNulFree(parts: seq<string>) {
    forall p | p in parts :: NulFree(p)
  }

  /** Everything up to the first NUL. */
  function Head(s: string): (h: string)
    ensures |h| <= |s| && NulFree(h)
  {
    if s == [] || s[0] == NUL then [] else [s[0]] + Head(s[1..])
  }

  /** Splits at every NUL: the inverse of the loop. */
  function Decode(s: string): seq<string>
    decreases |s|
  {
    if s == [] then [] else
      var h := Head(s);
      if |h| == |s| then [h] else [h] + Decode(s[|h| + 1..])
  }

  lemma {:induction false} HeadOfPart(p: string, rest: string)
    requires NulFree(p)
    ensures Head(p + [NUL] + rest) == p
  {
    if p != [] {
      var s := p + [NUL] + rest;
      assert s[0] == p[0] && p[0] in p;
      assert s[1..] == p[1..] + [NUL] + rest;
      HeadOfPart(p[1..], rest);
    }
  }

  /** Round trip: the fields come back from what was hashed. */
  lemma {:induction false} DecodeEncode(parts: seq<string>)
    requires AllNulFree(parts)
    ensures Decode(Encode(parts)) == parts
  {
    if parts != [] {
      var p, rest := parts[0], Encode(parts[1..]);
      assert p in parts;
      HeadOfPart(p, rest);
      var s := p + [NUL] + rest;
      assert s[|p| + 1..] == rest;
      DecodeEncode(parts[1..]);
    }
  }

  /** Equal fingerprints of NUL-free fields mean equal fields. */
  lemma EncodeInjective(a: seq<string>, b: seq<string>)
    requires AllNulFree(a) && AllNulFree(b) && Encode(a) == Encode(b)
    ensures a == b
  {
    DecodeEncode(a);
    DecodeEncode(b);
  }

  lemma {:induction false} EncodeConcat(a: seq<string>, b: seq<string>)
    ensures Encode(a + b) == Encode(a) + Encode(b)
  {
    if a == [] {
      assert a + b == b;
    } else {
      assert (a + b)[1..] == a[1..] + b;
      EncodeConcat(a[1..], b);
    }
  }

  /** One NUL per field, and more exactly if some field contains one. */
  lemma {:induction false} NulsCounted(parts: seq<string>)
    ensures multiset(Encode(parts))[NUL] >= |parts|
    ensures multiset(Encode(parts))[NUL] == |parts| <==> AllNulFree(parts)
  {
    if parts != [] {
      var p, rest := parts[0], parts[1..];
      NulsCounted(rest);
      assert multiset(Encode(parts)) == multiset(p) + multiset{NUL} + multiset(Encode(rest));
      assert NulFree(p) <==> multiset(p)[NUL] == 0;
      assert parts == [p] + rest;
    }
  }

  /** The border between two fields can be moved to a NUL inside either of them. */
  lemma Reborder(before: seq<string>, a: string, b: string, c: string, after: seq<string>)
    ensures Encode(before + [a + [NUL] + b, c] + after) == Encode(before + [a, b + [NUL] + c] + after)
  {
    hide Encode;
    var l, r := [a + [NUL] + b, c], [a, b + [NUL] + c];
    EncodeConcat(before + l, after);
    EncodeConcat(before, l);
    EncodeConcat(before + r, after);
    EncodeConcat(before, r);
    ReborderPair(a, b, c);
  }

  lemma ReborderPair(a: string, b: string, c: string)
    ensures Encode([a + [NUL] + b, c]) == Encode([a, b + [NUL] + c])
  {
    hide Encode;
    EncodePair(a + [NUL] + b, c);
    EncodePair(a, b + [NUL] + c);
    assert (a + [NUL] + b) + [NUL] + c + [NUL] == a + [NUL] + (b + [NUL] + c) + [NUL];
  }

  lemma EncodePair(x: string, y: string)
    ensures Encode([x, y]) == x + [NUL] + y + [NUL]
  {
    assert [x, y][1..] == [y] && [y][1..] == [];
    assert Encode([y]) == y + [NUL];
  }

  /** A list of fields with a NUL in one of them shares its encoding with another one. */
  lemma CollidesWith(f: seq<string>) returns (g: seq<string>)
    requires |f| >= 2 && !AllNulFree(f)
    ensures |g| == |f| && g != f && Encode(g) == Encode(f)
  {
    var i :| 0 <= i < |f| && !NulFree(f[i]);
    var n :| 0 <= n < |f[i]| && f[i][n] == NUL;
    var x, y := f[i][..n], f[i][n + 1..];
    assert f[i] == x + [NUL] + y;
    if i + 1 < |f| {
      g := f[..i] + [x, y + [NUL] + f[i + 1]] + f[i + 2..];
      Reborder(f[..i], x, y, f[i + 1], f[i + 2..]);
      assert f == f[..i] + [x + [NUL] + y, f[i + 1]] + f[i + 2..];
      assert g[i] == x;
    } else {
      g := f[..i - 1] + [f[i - 1] + [NUL] + x, y] + [];
      Reborder(f[..i - 1], f[i - 1], x, y, []);
      assert f == f[..i - 1] + [f[i - 1], x + [NUL] + y] + [];
      assert g[i] == y;
    }
  }

  /** Exactly when the encoding identifies the fields: some other list of as many fields has the
      same encoding if and only if one of them contains a NUL. */
  lemma CollidesIffNul(f: seq<string>)
    requires |f| >= 2
    ensures (exists g :: |g| == |f| && g != f && Encode(g) == Encode(f)) <==> !AllNulFree(f)
  {
    if AllNulFree(f) {
      forall g | |g| == |f| && Encode(g) == Encode(f)
        ensures g == f
      {
        NulsCounted(f);
        NulsCounted(g);
        EncodeInjective(f, g);
      }
    } else {
      var g := CollidesWith(f);
    }
  }

  /** For instance. (The prechecks before both uses of the fingerprint keep NUL out of the fields.) */
  lemma NulCollides()
    ensures var a, b := [[NUL], [], "c", "v", "s", "t"], [[], [NUL], "c", "v", "s", "t"];
            a != b && |a| == |b| == 6 && Encode(a) == Encode(b)
  {
    var a, b: seq<string> := [[NUL], [], "c", "v", "s", "t"], [[], [NUL], "c", "v", "s", "t"];
    var tail: seq<string> := ["c", "v", "s", "t"];
    assert a[1..][1..] == tail && b[1..][1..] == tail;
    assert a[1..][0] == [] && b[1..][0] == [NUL];
    assert Encode(a) == [NUL, NUL, NUL] + Encode(tail);
    assert Encode(b) == [NUL, NUL, NUL] + Encode(tail);
    assert a[0] != b[0];
  }

  function Fields(hold: string, dealership: string, customer: string, vehicle: string, service: string,
      start: string): seq<string> {
    [hold, dealership, customer, vehicle, service, start]
  }

  function Print(hold: string, dealership: string, customer: string, vehicle: string, service: string,
      start: string): string {
    Encode(Fields(hold, dealership, customer, vehicle, service, start))
  }

  lemma {:induction false} EncodeAppend(a: seq<string>, p: string)
    ensures Encode(a + [p]) == Encode(a) + p + [NUL]
  {
    if a == [] {
      assert [p][1..] == [];
    } else {
      assert (a + [p])[1..] == a[1..] + [p];
      EncodeAppend(a[1..], p);
    }
  }

  /** The loop itself: two writes into the hash state per field. */
  method Compute(hold: string, dealership: string, customer: string, vehicle: string, service: string, start: string)
    returns (h: string)
    ensures h == Print(hold, dealership, customer, vehicle, service, start)
    ensures AllNulFree(Fields(hold, dealership, customer, vehicle, service, start)) ==>
              Decode(h) == Fields(hold, dealership, customer, vehicle, service, start)
  {
    var parts := Fields(hold, dealership, customer, vehicle, service, start);
    h := [];
    for i := 0 to |parts|
      invariant h == Encode(parts[..i])
    {
      EncodeAppend(parts[..i], parts[i]);
      assert parts[..i + 1] == parts[..i] + [parts[i]];
      h := h + parts[i];
      h := h + [NUL];
    }
    assert parts[..|parts|] == parts;
    if AllNulFree(parts) {
      DecodeEncode(parts);
    }
  }

  /** A fingerprint taken from a hold row (no start) and one of a direct confirm (no hold id)
      never agree, so a key bound by one can never be replayed by the other. */
  lemma HoldNeverMatchesDirect(hold: string, d: string, c: string, v: string, s: string,
                               d': string, c': string, v': string, s': string, start': string)
    requires hold != "" && AllNulFree(Fields(hold, d, c, v, s, "")) && AllNulFree(Fields("", d', c', v', s', start'))
    ensures Print(hold, d, c, v, s, "") != Print("", d', c', v', s', start')
  {
    assert Fields(hold, d, c, v, s, "")[0] != Fields("", d', c', v', s', start')[0];
    if Print(hold, d, c, v, s, "") == Print("", d', c', v', s', start') {
      EncodeInjective(Fields(hold, d, c, v, s, ""), Fields("", d', c', v', s', start'));
    }
  }

  /** Never the empty string, so NULLIF never drops it. */
  lemma PrintNotEmpty(hold: string, d: string, c: string, v: string, s: string, start: string)
    ensures Print(hold, d, c, v, s, start) != ""
  {
    assert Fields(hold, d, c, v, s, start) != [];
  }
}
