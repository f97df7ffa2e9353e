/** The parser for the kernel's tracepoint `format` text that a
    `get_tracepoint_info` reply carries: a header of `name:`, `ID:` and
    `format:` lines, then the common fields, a blank line, the event's own
    fields, and a `print fmt:` line. Each field line is a `;`-separated list
    of `key:value` subfields. */
module Tracepoints {
  import opened Base
  import opened Strings

  /** A parsed field; a subfield that never appeared stays `None`. */
  datatype Field = Field(
    name: Option<string>,
    typ: Option<string>,
    offset: Option<JsNumber>,
    size: Option<JsNumber>,
    signed: Option<bool>)

  const NoField: Field := Field(None, None, None, None, None)

  datatype Tracepoint = Tracepoint(
    name: Option<string>,
    id: Option<JsNumber>,
    printFormat: Option<string>,
    commonFields: Option<seq<Field>>,
    eventFields: Option<seq<Field>>)

  const NoTracepoint: Tracepoint := Tracepoint(None, None, None, None, None)

  const FieldKey := "field:"
  const OffsetKey := "offset:"
  const SizeKey := "size:"
  const SignedKey := "signed:"

  /** A key ends in the colon and holds no other colon. */
  predicate IsKey(key: string) {
    |key| > 0 && key[|key| - 1] == ':' && ':' !in key[..|key| - 1]
  }

  /** The text between the first and the second colon of a subfield that
      starts with a key. */
  function ValueAfter(sub: string, key: string): (v: string)
    requires IsKey(key) && StartsWith(sub, key)
    ensures ':' !in v
  {
    assert sub[|key| - 1] == ':';
    Split(sub, ':')[1]
  }

  /** Reading back a key followed by a colon-free value yields the value. */
  lemma ValueAfterKey(key: string, value: string)
    requires IsKey(key) && ':' !in value
    ensures StartsWith(key + value, key) && ValueAfter(key + value, key) == value
  {
    var k := key[..|key| - 1];
    assert key + value == k + [':'] + value;
    SplitAround(k, value, ':');
  }

  /** One subfield, trimmed, updates the field it names; unknown ones are
      ignored. A `field:` subfield names the field by its last space-separated
      token and types it by the tokens before. */
  function ApplySubfield(f: Field, raw: string): Field {
    var sub := Trim(raw);
    if StartsWith(sub, FieldKey) then
      var tokens := Split(ValueAfter(sub, FieldKey), ' ');
      f.(name := Some(tokens[|tokens| - 1]), typ := Some(Join(tokens[..|tokens| - 1], ' ')))
    else if StartsWith(sub, OffsetKey) then f.(offset := Some(ToNumber(ValueAfter(sub, OffsetKey))))
    else if StartsWith(sub, SizeKey) then f.(size := Some(ToNumber(ValueAfter(sub, SizeKey))))
    else if StartsWith(sub, SignedKey) then f.(signed := Some(Truthy(ToNumber(ValueAfter(sub, SignedKey)))))
    else f
  }

  /** A subfield changes only the part of the field its key names. */
  lemma ApplySubfieldTouches(f: Field, raw: string)
    ensures var r := ApplySubfield(f, raw);
      && ((r.name != f.name || r.typ != f.typ) ==> StartsWith(Trim(raw), FieldKey))
      && (r.offset != f.offset ==> StartsWith(Trim(raw), OffsetKey))
      && (r.size != f.size ==> StartsWith(Trim(raw), SizeKey))
      && (r.signed != f.signed ==> StartsWith(Trim(raw), SignedKey))
  { }

  /** A `field:` subfield always sets both the name and the type, the name
      a single word. */
  lemma FieldSubfieldNames(f: Field, raw: string)
    requires StartsWith(Trim(raw), FieldKey)
    ensures var r := ApplySubfield(f, raw);
      r.name.Some? && r.typ.Some? && ' ' !in r.name.value
  { }

  /** The subfields of a line applied in order. A name always comes with a
      type, and is a single word. */
  function ApplyAll(f: Field, subs: seq<string>): (r: Field)
    ensures (f.name.Some? <==> f.typ.Some?) ==> (r.name.Some? <==> r.typ.Some?)
    ensures (f.name.Some? ==> ' ' !in f.name.value) ==> (r.name.Some? ==> ' ' !in r.name.value)
    decreases |subs|
  {
    if |subs| == 0 then f
    else
      ApplySubfieldTouches(f, subs[0]);
      if StartsWith(Trim(subs[0]), FieldKey) then
        FieldSubfieldNames(f, subs[0]);
        ApplyAll(ApplySubfield(f, subs[0]), subs[1..])
      else
      ApplyAll(ApplySubfield(f, subs[0]), subs[1..])
  }

  /** A field line (without its leading tab). */
  function ParseField(line: string): (r: Field)
    ensures r.name.Some? <==> r.typ.Some?
    ensures r.name.Some? ==> ' ' !in r.name.value
  {
    ApplyAll(NoField, Split(line, ';'))
  }

  // ---------------------------------------------------------------------
  // The format text

  const FieldLinePrefix := "\tfield:"

  /** The field lines from `i` on end at the first line that is not one:
      its index. `None` when the lines run out first: the client then reads
      past the end of the line array and throws. */
  function FieldRunEnd(lines: seq<string>, i: nat): (r: Option<nat>)
    ensures r.Some? ==> i <= r.value < |lines| && !StartsWith(lines[r.value], FieldLinePrefix)
    ensures r.Some? ==> FieldLines(lines, i, r.value)
    ensures r.None? ==> FieldLines(lines, i, |lines|)
    decreases |lines| - i
  {
    if i >= |lines| then None
    else if !StartsWith(lines[i], FieldLinePrefix) then Some(i)
    else FieldRunEnd(lines, i + 1)
  }

  /** Lines `a` up to `b` are all field lines. */
  predicate FieldLines(lines: seq<string>, a: nat, b: nat)
    requires b <= |lines|
  {
    forall k :: a <= k < b ==> StartsWith(lines[k], FieldLinePrefix)
  }

  /** The fields of a run of field lines, each read without its tab. */
  function FieldsOf(ls: seq<string>): (fs: seq<Field>)
    ensures |fs| == |ls|
  {
    seq(|ls|, k requires 0 <= k < |ls| => ParseField(Drop(ls[k], 1)))
  }

  /** The line loop from line `i`, with what has been read so far; a
      `format:` line hands over to `ReadFormat` and ends the loop. */
  function ParseLines(lines: seq<string>, i: nat, t: Tracepoint): (r: Option<Tracepoint>)
    ensures (t.commonFields.Some? <==> t.eventFields.Some?) && r.Some? ==>
      (r.value.commonFields.Some? <==> r.value.eventFields.Some?)
    ensures (forall k :: i <= k < |lines| ==> !StartsWith(lines[k], "format:")) ==>
      r.Some? && r.value.commonFields == t.commonFields && r.value.eventFields == t.eventFields
    decreases |lines| - i
  {
    if i >= |lines| then Some(t)
    else
      var line := lines[i];
      if StartsWith(line, "name:") then ParseLines(lines, i + 1, t.(name := Some(Drop(line, 6))))
      else if StartsWith(line, "ID:") then ParseLines(lines, i + 1, t.(id := Some(ToNumber(Drop(line, 4)))))
      else if StartsWith(line, "print fmt:") then ParseLines(lines, i + 1, t.(printFormat := Some(Drop(line, 11))))
      else if StartsWith(line, "format:") then ReadFormat(lines, i + 1, t)
      else ParseLines(lines, i + 1, t)
  }

  /** The format block whose field lines start at `i`: the common fields,
      then — when the line after the one that ended them mentions a field
      anywhere — the event fields. Nothing after the block is read. */
  function ReadFormat(lines: seq<string>, i: nat, t: Tracepoint): (r: Option<Tracepoint>)
    ensures FieldRunEnd(lines, i).None? ==> r.None?
    ensures r.Some? ==>
      && r.value.commonFields.Some? && r.value.eventFields.Some?
      && r.value.(commonFields := t.commonFields, eventFields := t.eventFields) == t
    ensures r.Some? ==> FieldRunEnd(lines, i).Some? && |r.value.commonFields.value| == FieldRunEnd(lines, i).value - i
  {
    match FieldRunEnd(lines, i)
    case None => None
    case Some(j) =>
      if j + 1 >= |lines| then None
      else if Contains(lines[j + 1], FieldLinePrefix) then
        match FieldRunEnd(lines, j + 1)
        case None => None
        case Some(k) => Some(t.(commonFields := Some(FieldsOf(lines[i..j])), eventFields := Some(FieldsOf(lines[j + 1..k]))))
      else Some(t.(commonFields := Some(FieldsOf(lines[i..j])), eventFields := Some([])))
  }

  /** The whole format text; `None` when the parse throws. */
  function ParseFormat(text: string): (r: Option<Tracepoint>)
    ensures r.Some? ==> (r.value.commonFields.Some? <==> r.value.eventFields.Some?)
    ensures (forall k :: 0 <= k < |Split(text, '\n')| ==> !StartsWith(Split(text, '\n')[k], "format:")) ==>
      r.Some? && r.value.commonFields.None? && r.value.eventFields.None?
  {
    ParseLines(Split(text, '\n'), 0, NoTracepoint)
  }

  // ---------------------------------------------------------------------
  // Properties

  /** A word of a field declaration: no white space, colon or semicolon. */
  predicate IsWord(w: string) {
    |w| > 0 && forall i :: 0 <= i < |w| ==> !IsJsSpace(w[i]) && w[i] != ':' && w[i] != ';'
  }

  predicate AllWords(ws: seq<string>) {
    forall i :: 0 <= i < |ws| ==> IsWord(ws[i])
  }

  /** A field line as the kernel writes it, without the leading tab: the
      declaration, then offset, size and signedness, each behind a tab. */
  function RenderField(typeWords: seq<string>, name: string, offset: nat, size: nat, signed: bool): string {
    Join(FieldParts(typeWords, name, offset, size, signed), ';')
  }

  function SignedDigit(signed: bool): nat {
    if signed then 1 else 0
  }

  function FieldParts(typeWords: seq<string>, name: string, offset: nat, size: nat, signed: bool): seq<string> {
    [FieldKey + Join(typeWords + [name], ' '),
     "\t" + OffsetKey + NatToString(offset),
     "\t" + SizeKey + NatToString(size),
     "\t" + SignedKey + NatToString(SignedDigit(signed)),
     ""]
  }

  /** The text of a subfield starting with a tab and then a key: trimming
      removes exactly the tab when the value ends in a non-space. */
  lemma TrimTabbed(key: string, value: string)
    requires |key| > 0 && !IsJsSpace(key[0]) && |value| > 0 && !IsJsSpace(value[|value| - 1])
    ensures Trim("\t" + key + value) == key + value
  {
    var s := "\t" + key + value;
    assert s[1..] == key + value;
    TrimStartNoSpace(key + value);
    TrimEndNoSpace(key + value);
  }

  lemma DigitsHaveNoSeparators(d: string)
    requires AllDigits(d)
    ensures ':' !in d && ';' !in d && (|d| > 0 ==> !IsJsSpace(d[|d| - 1]))
  {
    forall k | 0 <= k < |d| ensures d[k] != ':' && d[k] != ';' {
      assert IsDigit(d[k]);
    }
  }

  /** Words joined by spaces hold no colon or semicolon and end in a non-space. */
  lemma {:induction false} JoinWords(ws: seq<string>)
    requires |ws| > 0 && AllWords(ws)
    ensures var j := Join(ws, ' ');
      && ':' !in j && ';' !in j && |j| > 0 && !IsJsSpace(j[0]) && !IsJsSpace(j[|j| - 1])
    decreases |ws|
  {
    var j := Join(ws, ' ');
    assert IsWord(ws[0]);
    if |ws| > 1 {
      JoinWords(ws[1..]);
      var rest := Join(ws[1..], ' ');
      assert j == ws[0] + [' '] + rest;
      assert j[|j| - 1] == rest[|rest| - 1];
      forall k | 0 <= k < |j| ensures j[k] != ':' && j[k] != ';' {
        if k < |ws[0]| { assert j[k] == ws[0][k]; }
        else if k > |ws[0]| { assert j[k] == rest[k - |ws[0]| - 1]; }
      }
    } else {
      forall k | 0 <= k < |j| ensures j[k] != ':' && j[k] != ';' {
        assert j[k] == ws[0][k];
      }
    }
  }

  lemma WordsHaveNoSpace(ws: seq<string>)
    requires AllWords(ws)
    ensures forall i :: 0 <= i < |ws| ==> ' ' !in ws[i]
  {
    forall i, k | 0 <= i < |ws| && 0 <= k < |ws[i]| ensures ws[i][k] != ' ' {
      assert IsWord(ws[i]);
    }
  }

  /** Text that differs from a prefix at some position does not start with it. */
  lemma DiffersAt(s: string, prefix: string, k: nat)
    requires k < |s| && k < |prefix| && s[k] != prefix[k]
    ensures !StartsWith(s, prefix)
  {
    if |prefix| <= |s| {
      assert s[..|prefix|][k] == s[k];
    }
  }

  /** A subfield whose trimmed text is `field:` and a declaration splits the
      declaration at its spaces: the last word is the name, the rest the type. */
  lemma ApplyFieldKey(f: Field, raw: string, ws: seq<string>)
    requires StartsWith(Trim(raw), FieldKey)
    requires Split(ValueAfter(Trim(raw), FieldKey), ' ') == ws
    ensures |ws| > 0
    ensures ApplySubfield(f, raw) == f.(name := Some(ws[|ws| - 1]), typ := Some(Join(ws[..|ws| - 1], ' ')))
  { }

  lemma ApplyDeclaration(f: Field, typeWords: seq<string>, name: string)
    requires AllWords(typeWords) && IsWord(name)
    ensures ApplySubfield(f, FieldKey + Join(typeWords + [name], ' '))
      == f.(name := Some(name), typ := Some(Join(typeWords, ' ')))
  {
    var ws := typeWords + [name];
    var decl := Join(ws, ' ');
    var sub := FieldKey + decl;
    assert Trim(sub) == sub by {
      assert AllWords(ws);
      JoinWords(ws);
      TrimNoSpace(sub);
    }
    assert StartsWith(sub, FieldKey) && ValueAfter(sub, FieldKey) == decl by {
      JoinWords(ws);
      ValueAfterKey(FieldKey, decl);
    }
    assert Split(decl, ' ') == ws by {
      assert AllWords(ws);
      WordsHaveNoSpace(ws);
      SplitJoin(ws, ' ');
    }
    ApplyFieldKey(f, sub, ws);
    assert ws[..|ws| - 1] == typeWords;
  }

  /** The value subfield, once its tab is trimmed, is read back exactly. */
  lemma KeyedValue(key: string, n: nat)
    requires IsKey(key) && !IsJsSpace(key[0])
    ensures var d := NatToString(n);
      && Trim("\t" + key + d) == key + d
      && StartsWith(key + d, key) && ToNumber(ValueAfter(key + d, key)) == Num(n)
  {
    var d := NatToString(n);
    DigitsHaveNoSeparators(d);
    TrimTabbed(key, d);
    ValueAfterKey(key, d);
    NumberOfNat(n);
  }

  lemma ApplyOffset(f: Field, n: nat)
    ensures ApplySubfield(f, "\t" + OffsetKey + NatToString(n)) == f.(offset := Some(Num(n)))
  {
    var d := NatToString(n);
    KeyedValue(OffsetKey, n);
    DiffersAt(OffsetKey + d, FieldKey, 0);
  }

  lemma ApplySize(f: Field, n: nat)
    ensures ApplySubfield(f, "\t" + SizeKey + NatToString(n)) == f.(size := Some(Num(n)))
  {
    var d := NatToString(n);
    KeyedValue(SizeKey, n);
    DiffersAt(SizeKey + d, FieldKey, 0);
    DiffersAt(SizeKey + d, OffsetKey, 0);
  }

  lemma ApplySigned(f: Field, n: nat)
    ensures ApplySubfield(f, "\t" + SignedKey + NatToString(n)) == f.(signed := Some(n != 0))
  {
    var d := NatToString(n);
    KeyedValue(SignedKey, n);
    DiffersAt(SignedKey + d, FieldKey, 0);
    DiffersAt(SignedKey + d, OffsetKey, 0);
    DiffersAt(SignedKey + d, SizeKey, 2);
  }

  /** One step of the subfield loop, at position `k`. */
  lemma ApplyStep(f: Field, p: seq<string>, k: nat)
    requires k < |p|
    ensures ApplyAll(f, p[k..]) == ApplyAll(ApplySubfield(f, p[k]), p[k + 1..])
  {
    assert p[k..][0] == p[k] && p[k..][1..] == p[k + 1..];
  }

  lemma SplitRendered(typeWords: seq<string>, name: string, offset: nat, size: nat, signed: bool)
    requires AllWords(typeWords) && IsWord(name)
    ensures Split(RenderField(typeWords, name, offset, size, signed), ';')
      == FieldParts(typeWords, name, offset, size, signed)
  {
    var parts := FieldParts(typeWords, name, offset, size, signed);
    assert ';' !in parts[0] by {
      JoinWords(typeWords + [name]);
    }
    DigitsHaveNoSeparators(NatToString(offset));
    DigitsHaveNoSeparators(NatToString(size));
    DigitsHaveNoSeparators(NatToString(SignedDigit(signed)));
    SplitJoin(parts, ';');
  }

  /** A field line as the kernel writes it parses back to its declaration's
      name and type, and its offset, size and signedness. */
  lemma ParseRenderedField(typeWords: seq<string>, name: string, offset: nat, size: nat, signed: bool)
    requires AllWords(typeWords) && IsWord(name)
    ensures ParseField(RenderField(typeWords, name, offset, size, signed))
      == Field(Some(name), Some(Join(typeWords, ' ')), Some(Num(offset)), Some(Num(size)), Some(signed))
  {
    var parts := FieldParts(typeWords, name, offset, size, signed);
    SplitRendered(typeWords, name, offset, size, signed);
    assert parts[0..] == parts;
    var f1 := NoField.(name := Some(name), typ := Some(Join(typeWords, ' ')));
    ApplyStep(NoField, parts, 0);
    ApplyDeclaration(NoField, typeWords, name);
    var f2 := f1.(offset := Some(Num(offset)));
    ApplyStep(f1, parts, 1);
    ApplyOffset(f1, offset);
    var f3 := f2.(size := Some(Num(size)));
    ApplyStep(f2, parts, 2);
    ApplySize(f2, size);
    var f4 := f3.(signed := Some(SignedDigit(signed) != 0));
    ApplyStep(f3, parts, 3);
    ApplySigned(f3, SignedDigit(signed));
    ApplyStep(f4, parts, 4);
    assert ApplySubfield(f4, parts[4]) == f4;
    assert parts[5..] == [];
  }

  predicate AllFieldLines(ls: seq<string>) {
    forall k :: 0 <= k < |ls| ==> StartsWith(ls[k], FieldLinePrefix)
  }

  /** The field lines from `i` up to a line `j` that is not one form a run
      that ends at `j`. */
  lemma {:induction false} FieldRunReadsRun(lines: seq<string>, i: nat, j: nat)
    requires i <= j < |lines|
    requires FieldLines(lines, i, j)
    requires !StartsWith(lines[j], FieldLinePrefix)
    ensures FieldRunEnd(lines, i) == Some(j)
    decreases j - i
  {
    if i < j {
      FieldRunReadsRun(lines, i + 1, j);
    }
  }

  /** The header lines of a format text. */
  function Header(name: string, id: nat): seq<string> {
    ["name: " + name, "ID: " + NatToString(id), "format:"]
  }

  /** A format text laid out as the kernel writes it. */
  function FormatLines(name: string, id: nat, common: seq<string>, event: seq<string>, printFmt: string): seq<string> {
    Header(name, id) + common + [""] + event + ["", "print fmt: " + printFmt]
  }

  lemma ReadHeader(lines: seq<string>, name: string, id: nat)
    requires |lines| >= 3 && lines[..3] == Header(name, id)
    ensures ParseLines(lines, 0, NoTracepoint)
      == ParseLines(lines, 2, NoTracepoint.(name := Some(name), id := Some(Num(id))))
  {
    var l0 := lines[0];
    var l1 := lines[1];
    assert l0 == lines[..3][0] && l1 == lines[..3][1];
    assert StartsWith(l0, "name:");
    assert Drop(l0, 6) == name;
    DiffersAt(l1, "name:", 0);
    assert StartsWith(l1, "ID:");
    NumberOfNat(id);
    assert Drop(l1, 4) == NatToString(id);
  }

  /** Where each part of the kernel layout sits. */
  lemma LayoutIndices(name: string, id: nat, common: seq<string>, event: seq<string>, printFmt: string)
    ensures var lines := FormatLines(name, id, common, event, printFmt);
      var n := |common|;
      var m := |event|;
      && |lines| == n + m + 6
      && lines[..3] == Header(name, id)
      && (forall k :: 3 <= k < 3 + n ==> lines[k] == common[k - 3])
      && lines[3 + n] == ""
      && (forall k :: 4 + n <= k < 4 + n + m ==> lines[k] == event[k - 4 - n])
      && lines[4 + n + m] == ""
  {
    var lines := FormatLines(name, id, common, event, printFmt);
    var n := |common|;
    var h := Header(name, id);
    assert lines == h + (common + ([""] + (event + ["", "print fmt: " + printFmt])));
    forall k | 3 <= k < 3 + n ensures lines[k] == common[k - 3] {
    }
  }

  /** The `format:` line hands the rest of the text to the format block. */
  lemma FormatLineHandsOver(lines: seq<string>, i: nat, t: Tracepoint)
    requires i < |lines| && lines[i] == "format:"
    ensures ParseLines(lines, i, t) == ReadFormat(lines, i + 1, t)
  {
    var l := lines[i];
    DiffersAt(l, "name:", 0);
    DiffersAt(l, "ID:", 0);
    DiffersAt(l, "print fmt:", 0);
    assert StartsWith(l, "format:");
  }

  /** A run of common field lines from `i` up to the separator at `j`, and a
      non-empty run of event field lines from `j + 1` up to `k`, end the
      format block with both runs read. */
  lemma FormatBlockRead(lines: seq<string>, t: Tracepoint, i: nat, j: nat, k: nat)
    requires i <= j && j + 1 < k < |lines|
    requires FieldLines(lines, i, j) && !StartsWith(lines[j], FieldLinePrefix)
    requires FieldLines(lines, j + 1, k) && !StartsWith(lines[k], FieldLinePrefix)
    ensures ReadFormat(lines, i, t) == Some(t.(commonFields := Some(FieldsOf(lines[i..j])),
                                               eventFields := Some(FieldsOf(lines[j + 1..k]))))
  {
    FieldRunReadsRun(lines, i, j);
    FieldRunReadsRun(lines, j + 1, k);
    var l := lines[j + 1];
    assert StartsWith(l, FieldLinePrefix);
    assert Contains(l, FieldLinePrefix);
  }

  /** On a format text laid out as the kernel writes it, the parse reads the
      name, the ID and both field runs, and stops at the end of the format
      block: the `print fmt:` line that follows it is never read. */
  lemma ParseKernelLayout(name: string, id: nat, common: seq<string>, event: seq<string>, printFmt: string)
    requires AllFieldLines(common) && AllFieldLines(event) && |event| > 0
    ensures ParseLines(FormatLines(name, id, common, event, printFmt), 0, NoTracepoint)
      == Some(Tracepoint(Some(name), Some(Num(id)), None, Some(FieldsOf(common)), Some(FieldsOf(event))))
  {
    var lines := FormatLines(name, id, common, event, printFmt);
    var n := |common|;
    var m := |event|;
    LayoutIndices(name, id, common, event, printFmt);
    ReadHeader(lines, name, id);
    var t := NoTracepoint.(name := Some(name), id := Some(Num(id)));
    assert lines[2] == Header(name, id)[2];
    FormatLineHandsOver(lines, 2, t);
    FormatBlockRead(lines, t, 3, 3 + n, 4 + n + m);
    assert lines[3..3 + n] == common;
    assert lines[4 + n..4 + n + m] == event;
  }

  /** The same, starting from the text: the lines joined by newlines. */
  lemma ParseKernelFormat(name: string, id: nat, common: seq<string>, event: seq<string>, printFmt: string)
    requires AllFieldLines(common) && AllFieldLines(event) && |event| > 0
    requires var lines := FormatLines(name, id, common, event, printFmt);
      forall k :: 0 <= k < |lines| ==> '\n' !in lines[k]
    ensures ParseFormat(Join(FormatLines(name, id, common, event, printFmt), '\n'))
      == Some(Tracepoint(Some(name), Some(Num(id)), None, Some(FieldsOf(common)), Some(FieldsOf(event))))
  {
    SplitJoin(FormatLines(name, id, common, event, printFmt), '\n');
    ParseKernelLayout(name, id, common, event, printFmt);
  }
}
