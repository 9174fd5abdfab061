/** Version strings of the runtime catalog: the major version the program
    reads off them (int(version.partition('.')[0])), the age filter and the
    choice of extraction strategy that the major version drives. */
module Versions {
  import opened Wrappers

  /** The three parts str.partition returns; `found` stands for the middle part
      being the separator rather than the empty string. */
  datatype Parts = Parts(head: string, found: bool, tail: string)

  /** str.partition(sep). The ensures clauses determine the result: the head is
      free of `sep` and, when `sep` occurs, is followed by it and the tail. */
  function Partition(s: string, sep: char): (p: Parts)
    ensures sep !in p.head
    ensures p.found <==> sep in s
    ensures p.found ==> s == p.head + [sep] + p.tail
    ensures !p.found ==> s == p.head && p.tail == []
  {
    if s == [] then Parts([], false, [])
    else if s[0] == sep then Parts([], true, s[1..])
    else
      var p := Partition(s[1..], sep);
      assert s == [s[0]] + s[1..];
      Parts([s[0]] + p.head, p.found, p.tail)
  }

  predicate IsDigit(c: char) { '0' <= c <= '9' }

  predicate AllDigits(s: string) { forall i :: 0 <= i < |s| ==> IsDigit(s[i]) }

  /** What int() accepts in this model: one or more ASCII decimal digits. */
  predicate IsDecimal(s: string) { |s| > 0 && AllDigits(s) }

  /** The value of a string of decimal digits, most significant digit first. */
  function Value(s: string): nat
    requires AllDigits(s)
  {
    if s == [] then 0 else 10 * Value(s[..|s| - 1]) + (s[|s| - 1] as int - '0' as int)
  }

  /** int(s): the decimal value of `s`, or None where int() raises ValueError. */
  function ParseDecimal(s: string): Option<nat>
  {
    if IsDecimal(s) then Some(Value(s)) else None
  }

  /** The major version: int() of the text before the first '.', or of the
      whole string when it has no '.'; None where int() raises. */
  function Major(version: string): Option<nat>
  {
    ParseDecimal(Partition(version, '.').head)
  }

  /** The decimal rendering of a natural number, the reference that
      ParseDecimal inverts. */
  function Decimal(n: nat): (r: string)
    ensures IsDecimal(r) && '.' !in r
  {
    if n < 10 then [('0' as int + n) as char]
    else Decimal(n / 10) + [('0' as int + n % 10) as char]
  }

  lemma {:induction false} ParseDecimalOfDecimal(n: nat)
    ensures ParseDecimal(Decimal(n)) == Some(n)
  {
    var s := Decimal(n);
    if n >= 10 {
      ParseDecimalOfDecimal(n / 10);
      assert s[..|s| - 1] == Decimal(n / 10);
      assert Value(s) == 10 * (n / 10) + n % 10;
    } else {
      assert s[..|s| - 1] == [];
    }
  }

  /** The head that Partition finds is the '.'-free prefix followed by '.'. */
  lemma {:induction false} PartitionAtFirst(head: string, tail: string, sep: char)
    requires sep !in head
    ensures Partition(head + [sep] + tail, sep) == Parts(head, true, tail)
  {
    var s := head + [sep] + tail;
    if head == [] {
      assert s[0] == sep && s[1..] == tail;
    } else {
      assert s[0] == head[0] && s[1..] == head[1..] + [sep] + tail;
      PartitionAtFirst(head[1..], tail, sep);
      assert [head[0]] + head[1..] == head;
    }
  }

  /** The major version is int() of the digits before the first '.', or of
      the whole string when it has no '.'; leading zeros are allowed, as
      int("014") == 14. */
  lemma MajorOfDigits(h: string, rest: string)
    requires IsDecimal(h)
    ensures Major(h + "." + rest) == Some(Value(h))
    ensures Major(h) == Some(Value(h))
  {
    PartitionAtFirst(h, rest, '.');
  }

  /** The same for the canonical decimal text of a number. */
  lemma MajorOfDotted(n: nat, rest: string)
    ensures Major(Decimal(n) + "." + rest) == Some(n)
    ensures Major(Decimal(n)) == Some(n)
  {
    PartitionAtFirst(Decimal(n), rest, '.');
    ParseDecimalOfDecimal(n);
  }

  /** Major versions 14 and above are kept without --include-old-versions. */
  const OldestCurrentMajor: nat := 14

  /** How fetch_all treats a runtime whose output directory is still empty. */
  datatype Strategy =
    | Unsupported  // version 10: the CAB is nested too deep for 7-Zip's filter
    | Legacy       // before version 11: a 7-Zip self-extractor holding CABs
    | Bundle       // version 11 on: a WiX Burn bundle unpacked with dark.exe

  /** The tests of fetch_all in their order: == 10, then < 11, else the bundle. */
  function StrategyFor(major: nat): Strategy
  {
    if major == 10 then Unsupported
    else if major < 11 then Legacy
    else Bundle
  }

  /** Versions named in the program's own notes, routed as its comments say:
      Visual C++ 2008 by 7-Zip, 2010 skipped, 2013 and 2015-2022 as bundles;
      the first two and 2013 are also older than the age filter keeps. */
  lemma KnownVersionsRouted()
    ensures Major("9.0.30729.4148") == Some(9) && StrategyFor(9) == Legacy
    ensures Major("10.0.40219.32503") == Some(10) && StrategyFor(10) == Unsupported
    ensures Major("12.0.30501.0") == Some(12) && StrategyFor(12) == Bundle
    ensures Major("14.42.34438.0") == Some(14) && StrategyFor(14) == Bundle
    ensures 9 < OldestCurrentMajor && 12 < OldestCurrentMajor && 14 >= OldestCurrentMajor
  {
    MajorOf2008();
    MajorOf2010();
    MajorOf2013();
    MajorOf2022();
  }

  lemma MajorOf2008() ensures Major("9.0.30729.4148") == Some(9)
  {
    assert Decimal(9) == "9";
    MajorOfVersion(9, "9.0.30729.4148", "0.30729.4148");
  }

  lemma MajorOf2010() ensures Major("10.0.40219.32503") == Some(10)
  {
    assert Decimal(10) == "10";
    MajorOfVersion(10, "10.0.40219.32503", "0.40219.32503");
  }

  lemma MajorOf2013() ensures Major("12.0.30501.0") == Some(12)
  {
    assert Decimal(12) == "12";
    MajorOfVersion(12, "12.0.30501.0", "0.30501.0");
  }

  lemma MajorOf2022() ensures Major("14.42.34438.0") == Some(14)
  {
    assert Decimal(14) == "14";
    MajorOfVersion(14, "14.42.34438.0", "42.34438.0");
  }

  lemma MajorOfVersion(n: nat, version: string, rest: string)
    requires version == Decimal(n) + "." + rest
    ensures Major(version) == Some(n)
  {
    MajorOfDotted(n, rest);
  }
}
