/** Reading a command line back: the options of a virtual machine monitor, one after the other,
    each a switch or a flag with a value. What a flag means is up to the reader. */
module CommandLine {
  import opened Wrappers
  import opened Text

  /** What a switch and what a flag with its value make of the settings read so far. */
  datatype Reader<!R> = Reader(isSwitch: string -> bool, flip: (R, string) -> R, apply: (R, string, string) -> R)

  /** The settings after the options from position at on; None when a value is missing. */
  function Read<R>(reader: Reader<R>, arguments: seq<string>, at: nat, r: R): Option<R>
    requires at <= |arguments|
    decreases |arguments| - at
  {
    if at == |arguments| then Some(r)
    else if reader.isSwitch(arguments[at]) then
      Read(reader, arguments, at + 1, reader.flip(r, arguments[at]))
    else if at + 1 == |arguments| then None
    else Read(reader, arguments, at + 2, reader.apply(r, arguments[at], arguments[at + 1]))
  }

  /** The options from position at on turn r into after. */
  predicate Reads<R(==)>(reader: Reader<R>, arguments: seq<string>, r: R, after: R) {
    Read(reader, arguments, 0, r) == Some(after)
  }

  lemma {:induction false} ReadFront<R>(reader: Reader<R>, a: seq<string>, b: seq<string>, at: nat, r: R)
    requires at <= |a| && Read(reader, a, at, r).Some?
    ensures Read(reader, a + b, at, r) == Read(reader, a + b, |a|, Read(reader, a, at, r).value)
    decreases |a| - at
  {
    if at < |a| {
      assert (a + b)[at] == a[at];
      if reader.isSwitch(a[at]) {
        ReadFront(reader, a, b, at + 1, reader.flip(r, a[at]));
      } else {
        assert (a + b)[at + 1] == a[at + 1];
        ReadFront(reader, a, b, at + 2, reader.apply(r, a[at], a[at + 1]));
      }
    }
  }

  lemma {:induction false} ReadBack<R>(reader: Reader<R>, a: seq<string>, b: seq<string>, at: nat, r: R)
    requires at <= |b|
    ensures Read(reader, a + b, |a| + at, r) == Read(reader, b, at, r)
    decreases |b| - at
  {
    if at < |b| {
      assert (a + b)[|a| + at] == b[at];
      if reader.isSwitch(b[at]) {
        ReadBack(reader, a, b, at + 1, reader.flip(r, b[at]));
      } else if at + 1 < |b| {
        assert (a + b)[|a| + at + 1] == b[at + 1];
        ReadBack(reader, a, b, at + 2, reader.apply(r, b[at], b[at + 1]));
      }
    }
  }

  /** Options are read one part after the other. */
  lemma ReadsConcat<R>(reader: Reader<R>, a: seq<string>, b: seq<string>, r: R, middle: R, after: R)
    requires Reads(reader, a, r, middle) && Reads(reader, b, middle, after)
    ensures Reads(reader, a + b, r, after)
  {
    ReadFront(reader, a, b, 0, r);
    ReadBack(reader, a, b, 0, middle);
  }

  lemma ReadsNothing<R>(reader: Reader<R>, r: R)
    ensures Reads(reader, [], r, r)
  {
  }

  lemma ReadsSwitch<R>(reader: Reader<R>, flag: string, r: R)
    requires reader.isSwitch(flag)
    ensures Reads(reader, [flag], r, reader.flip(r, flag))
  {
  }

  lemma ReadsSetting<R>(reader: Reader<R>, flag: string, value: string, r: R)
    requires !reader.isSwitch(flag)
    ensures Reads(reader, [flag, value], r, reader.apply(r, flag, value))
  {
    assert Read(reader, [flag, value], 2, reader.apply(r, flag, value)) == Some(reader.apply(r, flag, value));
  }

  lemma ReadsTwo<R>(reader: Reader<R>, flag: string, value: string, other: string, more: string, r: R)
    requires !reader.isSwitch(flag) && !reader.isSwitch(other)
    ensures Reads(reader, [flag, value, other, more], r, reader.apply(reader.apply(r, flag, value), other, more))
  {
    ReadsSetting(reader, flag, value, r);
    ReadsSetting(reader, other, more, reader.apply(r, flag, value));
    ReadsConcat(reader, [flag, value], [other, more], r, reader.apply(r, flag, value),
                reader.apply(reader.apply(r, flag, value), other, more));
    assert [flag, value] + [other, more] == [flag, value, other, more];
  }

  // ---- Values -----------------------------------------------------------------------------

  function Number(text: string): Option<nat> {
    if text != "" && AllDigits(text) then Some(DigitsValue(text)) else None
  }

  function NumberWithUnit(text: string, unit: string): Option<nat> {
    if |unit| <= |text| && text[|text| - |unit|..] == unit then Number(text[..|text| - |unit|]) else None
  }

  lemma UnitReads(n: nat, unit: string)
    ensures NumberWithUnit(NatText(n) + unit, unit) == Some(n)
  {
    var text := NatText(n) + unit;
    assert text[|text| - |unit|..] == unit && text[..|text| - |unit|] == NatText(n);
  }

  /** The text behind the first separator if what stands before it is the key. */
  function ValueOf(text: string, key: string, sep: char): Option<string> {
    match SplitOnce(text, sep)
    case Some(Pair(before, behind)) => if before == key then Some(behind) else None
    case None => None
  }

  lemma ValueReads(key: string, sep: char, value: string)
    requires sep !in key
    ensures ValueOf(key + [sep] + value, key, sep) == Some(value)
  {
    SplitOnceConcat(key, sep, value);
  }
}
