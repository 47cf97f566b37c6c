/** The fallback branch of generateUUID: the version-4 template whose 'x' and 'y'
    placeholders are replaced, left to right, by random nibbles. The random source
    (`Math.random() * 16 | 0`) is a parameter: one nibble in [0, 16) per placeholder. */
module Uuid {

  /** `n` copies of the character `c`. */
  function Rep(c: char, n: nat): (s: string)
    ensures |s| == n && forall i :: 0 <= i < n ==> s[i] == c
  {
    seq(n, _ => c)
  }

  /** 'xxxxxxxx-xxxx-4xxx-yxxx-xxxxxxxxxxxx', written in pieces so that its positions can be reasoned about. */
  const Template: string :=
    Rep('x', 8) + "-" + Rep('x', 4) + "-4" + Rep('x', 3) + "-y" + Rep('x', 3) + "-" + Rep('x', 12)

  predicate IsPlaceholder(c: char) {
    c == 'x' || c == 'y'
  }

  /** The number of placeholders in `t`: how many nibbles the template consumes. */
  function Placeholders(t: string): nat {
    if t == [] then 0 else (if IsPlaceholder(t[0]) then 1 else 0) + Placeholders(t[1..])
  }

  predicate IsLowerHex(c: char) {
    '0' <= c <= '9' || 'a' <= c <= 'f'
  }

  /** `v.toString(16)` for a single nibble. */
  function HexDigit(v: nat): (c: char)
    requires v < 16
    ensures IsLowerHex(c)
  {
    "0123456789abcdef"[v]
  }

  /** `r & 0x3 | 0x8`: the RFC 4122 variant nibble built from a random nibble. */
  function VariantNibble(r: nat): (v: nat)
    requires r < 16
    ensures 8 <= v < 12 && v % 4 == r % 4
  {
    ((r as bv8 & 0x3) | 0x8) as nat
  }

  predicate Nibbles(ns: seq<nat>) {
    forall i :: 0 <= i < |ns| ==> ns[i] < 16
  }

  /** The `replace(/[xy]/g, ...)` callback applied left to right over `t`. */
  function Fill(t: string, ns: seq<nat>): (r: string)
    requires |ns| == Placeholders(t) && Nibbles(ns)
    ensures |r| == |t|
    ensures forall i :: 0 <= i < |t| ==>
      if t[i] == 'x' then IsLowerHex(r[i])
      else if t[i] == 'y' then r[i] in "89ab"
      else r[i] == t[i]
  {
    if t == [] then []
    else if t[0] == 'x' then [HexDigit(ns[0])] + Fill(t[1..], ns[1..])
    else if t[0] == 'y' then [HexDigit(VariantNibble(ns[0]))] + Fill(t[1..], ns[1..])
    else [t[0]] + Fill(t[1..], ns)
  }

  /** The fallback generator: the version-4 template filled with 31 nibbles. */
  function FallbackUuid(ns: seq<nat>): (u: string)
    requires |ns| == 31 && Nibbles(ns)
    ensures IsUuidV4(u)
  {
    TemplatePlaceholders();
    UuidOfTemplate(Fill(Template, ns));
    Fill(Template, ns)
  }

  /** The shape the remote store validates: 8-4-4-4-12 lowercase hex digits, version digit 4,
      variant digit one of 8, 9, a, b. */
  predicate IsUuidV4(u: string) {
    && |u| == 36
    && u[8] == '-' && u[13] == '-' && u[18] == '-' && u[23] == '-'
    && u[14] == '4'
    && u[19] in "89ab"
    && (forall i :: 0 <= i < 8 ==> IsLowerHex(u[i]))
    && (forall i :: 9 <= i < 13 ==> IsLowerHex(u[i]))
    && (forall i :: 15 <= i < 18 ==> IsLowerHex(u[i]))
    && (forall i :: 20 <= i < 23 ==> IsLowerHex(u[i]))
    && (forall i :: 24 <= i < 36 ==> IsLowerHex(u[i]))
  }

  lemma {:induction false} PlaceholdersAppend(a: string, b: string)
    ensures Placeholders(a + b) == Placeholders(a) + Placeholders(b)
  {
    if a != [] {
      assert (a + b)[1..] == a[1..] + b;
      PlaceholdersAppend(a[1..], b);
    } else {
      assert a + b == b;
    }
  }

  lemma {:induction false} PlaceholdersRep(n: nat)
    ensures Placeholders(Rep('x', n)) == n
  {
    if n > 0 {
      assert Rep('x', n)[1..] == Rep('x', n - 1);
      PlaceholdersRep(n - 1);
    }
  }

  /** The template is the literal of App.tsx. */
  lemma TemplateLiteral()
    ensures Template == "xxxxxxxx-xxxx-4xxx-yxxx-xxxxxxxxxxxx"
  {
    assert Rep('x', 8) == "xxxxxxxx";
    assert Rep('x', 4) == "xxxx";
    assert Rep('x', 3) == "xxx";
    assert Rep('x', 12) == "xxxxxxxxxxxx";
  }

  /** The template consumes exactly 31 random nibbles. */
  lemma TemplatePlaceholders()
    ensures Placeholders(Template) == 31
  {
    PlaceholdersRep(8);
    PlaceholdersRep(4);
    PlaceholdersRep(3);
    PlaceholdersRep(12);
    assert Placeholders("-") == 0;
    assert Placeholders("-4") == 0;
    assert Placeholders("-y") == 1;
    var p1 := Rep('x', 8) + "-";
    var p2 := p1 + Rep('x', 4);
    var p3 := p2 + "-4";
    var p4 := p3 + Rep('x', 3);
    var p5 := p4 + "-y";
    var p6 := p5 + Rep('x', 3);
    var p7 := p6 + "-";
    PlaceholdersAppend(Rep('x', 8), "-");
    PlaceholdersAppend(p1, Rep('x', 4));
    PlaceholdersAppend(p2, "-4");
    PlaceholdersAppend(p3, Rep('x', 3));
    PlaceholdersAppend(p4, "-y");
    PlaceholdersAppend(p5, Rep('x', 3));
    PlaceholdersAppend(p6, "-");
    PlaceholdersAppend(p7, Rep('x', 12));
  }

  /** Any string that agrees with the template in Fill's sense has the UUID-v4 shape. */
  lemma UuidOfTemplate(u: string)
    requires |u| == |Template|
    requires forall i :: 0 <= i < |Template| ==>
      if Template[i] == 'x' then IsLowerHex(u[i])
      else if Template[i] == 'y' then u[i] in "89ab"
      else u[i] == Template[i]
    ensures IsUuidV4(u)
  {
    forall i | 0 <= i < 36 && i != 8 && i != 13 && i != 14 && i != 18 && i != 19 && i != 23
      ensures IsLowerHex(u[i])
    {
      assert Template[i] == 'x';
    }
  }

  /** The i-th character of a filled template, exactly: placeholders take the nibble whose
      index is the number of placeholders before them. */
  lemma {:induction false} FillAt(t: string, ns: seq<nat>, i: nat)
    requires |ns| == Placeholders(t) && Nibbles(ns) && i < |t|
    ensures Placeholders(t[..i]) + (if IsPlaceholder(t[i]) then 1 else 0) <= |ns|
    ensures t[i] == 'x' ==> Fill(t, ns)[i] == HexDigit(ns[Placeholders(t[..i])])
    ensures t[i] == 'y' ==> Fill(t, ns)[i] == HexDigit(VariantNibble(ns[Placeholders(t[..i])]))
  {
    if i == 0 {
      assert t[..0] == [];
    } else {
      assert t[1..][..i - 1] == t[1..i];
      assert t[..i] == [t[0]] + t[1..i];
      assert Placeholders(t[..i]) == (if IsPlaceholder(t[0]) then 1 else 0) + Placeholders(t[1..i]);
      if IsPlaceholder(t[0]) {
        FillAt(t[1..], ns[1..], i - 1);
      } else {
        FillAt(t[1..], ns, i - 1);
      }
    }
  }
}
