/** Request correlation tokens: a version-4 shaped UUID built by replacing
    every `x` and `y` of a fixed template with a random hexadecimal digit. */
module Uuids {

  /** `xxxxxxxx-xxxx-4xxx-yxxx-xxxxxxxxxxxx`, written by its runs of `x`. */
  const Template: string := Xs(8) + "-" + Xs(4) + "-4" + Xs(3) + "-y" + Xs(3) + "-" + Xs(12)

  function Xs(n: nat): (t: string)
    ensures |t| == n && forall i :: 0 <= i < n ==> t[i] == 'x'
  {
    seq(n, i => 'x')
  }

  predicate IsSlot(c: char) {
    c == 'x' || c == 'y'
  }

  predicate IsLowerHex(c: char) {
    '0' <= c <= '9' || 'a' <= c <= 'f'
  }

  /** Samples of `Math.random()`, each in [0, 1). */
  predicate IsRandomSource(rs: seq<real>) {
    forall i :: 0 <= i < |rs| ==> 0.0 <= rs[i] < 1.0
  }

  /** `Math.random()*16|0`. */
  function Nibble(r: real): (n: nat)
    requires 0.0 <= r < 1.0
    ensures n < 16
  {
    (r * 16.0).Floor
  }

  /** `v.toString(16)` of a value below 16. */
  function HexDigit(n: nat): (c: char)
    requires n < 16
    ensures IsLowerHex(c)
  {
    if n < 10 then ('0' as int + n) as char else ('a' as int + n - 10) as char
  }

  function CountSlots(t: string): nat {
    if |t| == 0 then 0 else (if IsSlot(t[0]) then 1 else 0) + CountSlots(t[1..])
  }

  /** The template with one random digit per slot: any digit for `x`,
      a digit of the form `10xx` for `y` (`r&0x3|0x8`). */
  function Fill(t: string, rs: seq<real>): (u: string)
    requires IsRandomSource(rs) && |rs| == CountSlots(t)
    ensures |u| == |t|
    ensures forall i :: 0 <= i < |t| && !IsSlot(t[i]) ==> u[i] == t[i]
    ensures forall i :: 0 <= i < |t| && t[i] == 'x' ==> IsLowerHex(u[i])
    ensures forall i :: 0 <= i < |t| && t[i] == 'y' ==> u[i] in "89ab"
    decreases |t|
  {
    if |t| == 0 then ""
    else if t[0] == 'x' then [HexDigit(Nibble(rs[0]))] + Fill(t[1..], rs[1..])
    else if t[0] == 'y' then [HexDigit(Nibble(rs[0]) % 4 + 8)] + Fill(t[1..], rs[1..])
    else [t[0]] + Fill(t[1..], rs)
  }

  /** The canonical textual form of a random (version 4, RFC 4122 variant) UUID. */
  predicate IsVersion4(u: string) {
    && |u| == 36
    && u[8] == '-' && u[13] == '-' && u[18] == '-' && u[23] == '-'
    && u[14] == '4'
    && u[19] in "89ab"
    && forall i :: 0 <= i < 36 && i != 8 && i != 13 && i != 18 && i != 23 ==> IsLowerHex(u[i])
  }

  lemma {:induction false} CountSlotsAppend(a: string, b: string)
    ensures CountSlots(a + b) == CountSlots(a) + CountSlots(b)
    decreases |a|
  {
    if |a| == 0 {
      assert a + b == b;
    } else {
      assert (a + b)[0] == a[0];
      assert (a + b)[1..] == a[1..] + b;
      CountSlotsAppend(a[1..], b);
    }
  }

  lemma {:induction false} CountSlotsXs(n: nat)
    ensures CountSlots(Xs(n)) == n
    decreases n
  {
    if n > 0 {
      assert Xs(n)[1..] == Xs(n - 1);
      CountSlotsXs(n - 1);
    }
  }

  lemma TemplateSlots()
    ensures CountSlots(Template) == 31
  {
    CountSlotsXs(8);
    CountSlotsXs(4);
    CountSlotsXs(3);
    CountSlotsXs(12);
    assert CountSlots("-") == 0;
    assert CountSlots("-4") == 0;
    assert CountSlots("-y") == 1;
    CountSlotsAppend(Xs(8), "-");
    CountSlotsAppend(Xs(8) + "-", Xs(4));
    CountSlotsAppend(Xs(8) + "-" + Xs(4), "-4");
    CountSlotsAppend(Xs(8) + "-" + Xs(4) + "-4", Xs(3));
    CountSlotsAppend(Xs(8) + "-" + Xs(4) + "-4" + Xs(3), "-y");
    CountSlotsAppend(Xs(8) + "-" + Xs(4) + "-4" + Xs(3) + "-y", Xs(3));
    CountSlotsAppend(Xs(8) + "-" + Xs(4) + "-4" + Xs(3) + "-y" + Xs(3), "-");
    CountSlotsAppend(Xs(8) + "-" + Xs(4) + "-4" + Xs(3) + "-y" + Xs(3) + "-", Xs(12));
  }

  lemma TemplateShape()
    ensures |Template| == 36
    ensures Template[8] == '-' && Template[13] == '-' && Template[18] == '-' && Template[23] == '-'
    ensures Template[14] == '4' && Template[19] == 'y'
    ensures forall i :: 0 <= i < 36 && i != 8 && i != 13 && i != 18 && i != 23 && i != 14 && i != 19 ==>
      Template[i] == 'x'
  {
  }

  /** `generate_uuid()` given the 31 random samples it draws. */
  function GenerateUuid(rs: seq<real>): (u: string)
    requires IsRandomSource(rs) && |rs| == 31
    ensures IsVersion4(u)
  {
    TemplateSlots();
    TemplateShape();
    Fill(Template, rs)
  }
}
