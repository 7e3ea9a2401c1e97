/**
 * Personal best times (source/storage/storage_pb.c): one line
 * `MapName=MM:SS.mmm` per map in a text file of at most ten records, read
 * with sscanf("%[^=]=%d:%d.%d"), compared lexicographically and rewritten
 * with the map's line replaced in place or appended.
 */
module StoragePB {
  import opened TextFile
  import opened FixedMath
  import opened GameTypes

  const STORAGE_MAX_MAP_RECORDS: nat := 10

  /** fgets buffer size used when reading the best-times file. */
  const PB_LINE_BUFFER: nat := 64

  /** mapToString: the three named maps by name, everything else "Unknown". */
  function MapToString(m: Map): (name: string)
    ensures name == "Unknown" <==> m == NoneMap
    ensures name != [] && forall k | 0 <= k < |name| :: name[k] != '=' && name[k] != '\n'
  {
    match m
    case ScorchingSands => "ScorchingSands"
    case AlpinRush => "AlpinRush"
    case NeonCircuit => "NeonCircuit"
    case NoneMap => "Unknown"
  }

  /** No two maps share a name. */
  lemma MapToStringInjective(a: Map, b: Map)
    requires MapToString(a) == MapToString(b)
    ensures a == b
  {
    assert |MapToString(a)| == |MapToString(b)|;
  }

  datatype Time = Time(min: int, sec: int, msec: int)

  /** isTimeFaster: a is strictly before b in the order on (min, sec, msec). */
  predicate IsTimeFaster(a: Time, b: Time)
  {
    if a.min < b.min then true
    else if a.min > b.min then false
    else if a.sec < b.sec then true
    else if a.sec > b.sec then false
    else a.msec < b.msec
  }

  /** A time the chronometer can show: seconds below 60, milliseconds below 1000. */
  predicate ValidTime(t: Time)
  {
    0 <= t.min && 0 <= t.sec < 60 && 0 <= t.msec < 1000
  }

  function TotalMs(t: Time): int
  {
    (t.min * 60 + t.sec) * 1000 + t.msec
  }

  /** The comparison is a strict order. */
  lemma IsTimeFasterStrictOrder(a: Time, b: Time, c: Time)
    ensures !IsTimeFaster(a, a)
    ensures IsTimeFaster(a, b) ==> !IsTimeFaster(b, a)
    ensures IsTimeFaster(a, b) && IsTimeFaster(b, c) ==> IsTimeFaster(a, c)
  {
  }

  /** On chronometer times, faster means fewer milliseconds in total. */
  lemma IsTimeFasterMeansShorter(a: Time, b: Time)
    requires ValidTime(a) && ValidTime(b)
    ensures IsTimeFaster(a, b) <==> TotalMs(a) < TotalMs(b)
  {
    if a.min < b.min {
      assert (a.min * 60 + a.sec) < (b.min * 60 + b.sec) by {
        assert a.min * 60 + 60 <= b.min * 60;
      }
    } else if a.min > b.min {
      assert (b.min * 60 + b.sec) < (a.min * 60 + a.sec) by {
        assert b.min * 60 + 60 <= a.min * 60;
      }
    }
  }

  // ---------------------------------------------------------------------
  // sscanf
  // ---------------------------------------------------------------------

  predicate IsDigit(c: char) { '0' <= c <= '9' }

  /** isspace in the C locale. */
  predicate IsSpace(c: char)
  {
    c == ' ' || c == '\t' || c == '\n' || c == '\r' || c == '\U{000B}' || c == '\U{000C}'
  }

  predicate AllDigits(d: string) { forall k | 0 <= k < |d| :: IsDigit(d[k]) }

  /** Lengths of the leading runs of white space, of digits, and of characters other than '='. */
  function SpaceRun(s: string): (n: nat)
    ensures n <= |s|
  {
    if s == [] || !IsSpace(s[0]) then 0 else 1 + SpaceRun(s[1..])
  }

  function DigitRun(s: string): (n: nat)
    ensures n <= |s|
  {
    if s == [] || !IsDigit(s[0]) then 0 else 1 + DigitRun(s[1..])
  }

  function NameRun(s: string): (n: nat)
    ensures n <= |s|
  {
    if s == [] || s[0] == '=' then 0 else 1 + NameRun(s[1..])
  }

  /** The digit run of digits followed by a non-digit is exactly those digits. */
  lemma {:induction false} DigitRunExact(digits: string, rest: string)
    requires AllDigits(digits) && (rest == [] || !IsDigit(rest[0]))
    ensures DigitRun(digits + rest) == |digits|
    decreases |digits|
  {
    if digits != [] {
      assert (digits + rest)[0] == digits[0];
      assert (digits + rest)[1..] == digits[1..] + rest;
      DigitRunExact(digits[1..], rest);
    } else {
      assert digits + rest == rest;
    }
  }

  /** The name run of a name without '=' followed by '=' is exactly the name. */
  lemma {:induction false} NameRunExact(name: string, rest: string)
    requires (forall k | 0 <= k < |name| :: name[k] != '=') && rest != [] && rest[0] == '='
    ensures NameRun(name + rest) == |name|
    decreases |name|
  {
    if name != [] {
      assert (name + rest)[0] == name[0];
      assert (name + rest)[1..] == name[1..] + rest;
      NameRunExact(name[1..], rest);
    } else {
      assert name + rest == rest;
    }
  }

  /** The name run holds no '='. */
  lemma {:induction false} NameRunNoEquals(s: string)
    ensures forall k | 0 <= k < NameRun(s) :: s[k] != '='
    decreases |s|
  {
    if s != [] && s[0] != '=' {
      NameRunNoEquals(s[1..]);
      assert forall k | 1 <= k < NameRun(s) :: s[k] == s[1..][k - 1];
    }
  }

  function DigitValue(c: char): int { c as int - '0' as int }

  /** The value of a string of decimal digits. */
  function DigitsValue(d: string): int
  {
    if d == [] then 0 else DigitsValue(d[..|d| - 1]) * 10 + DigitValue(d[|d| - 1])
  }

  /** A conversion's value and the input it leaves. */
  datatype Scanned<T> = Scanned(value: T, rest: string)

  /** The digits of %d: at least one, and their value. */
  function ScanMagnitude(s: string): (r: Option<Scanned<int>>)
    ensures r.Some? ==> |r.value.rest| < |s|
  {
    var n := DigitRun(s);
    if n == 0 then None else Some(Scanned(DigitsValue(s[..n]), s[n..]))
  }

  /** %d after the white space: an optional sign, then the digits. */
  function ScanSigned(s: string): (r: Option<Scanned<int>>)
    ensures r.Some? ==> |r.value.rest| < |s|
  {
    if s != [] && (s[0] == '-' || s[0] == '+') then
      var m := ScanMagnitude(s[1..]);
      if m.None? then None
      else Some(Scanned(if s[0] == '-' then -m.value.value else m.value.value, m.value.rest))
    else ScanMagnitude(s)
  }

  /** %d: skip white space, take an optional sign and at least one digit. */
  function ScanInt(s: string): (r: Option<Scanned<int>>)
    ensures r.Some? ==> |r.value.rest| < |s|
  {
    if s != [] && IsSpace(s[0]) then ScanInt(s[1..]) else ScanSigned(s)
  }

  /** An ordinary character c in the format, then %d: the value and the input left. */
  function ScanIntAfter(c: char, s: string): (r: Option<Scanned<int>>)
    ensures r.Some? ==> |r.value.rest| < |s|
  {
    if s != [] && s[0] == c then ScanInt(s[1..]) else None
  }

  /**
   * The name sscanf(line, "%[^=]=", mapStr) assigns: a non-empty run of
   * characters other than '='. The count returned is 1 as soon as the name
   * is assigned, whether the '=' follows or the line ends.
   */
  function ScanName(line: string): (name: Option<string>)
    ensures name.Some? ==> name.value != [] && forall k | 0 <= k < |name.value| :: name.value[k] != '='
  {
    var n := NameRun(line);
    NameRunNoEquals(line);
    if n == 0 then None else Some(line[..n])
  }

  datatype Record = Record(name: string, time: Time)

  /** sscanf(line, "%[^=]=%d:%d.%d", ...) returning 4: the name and the three numbers. */
  function ScanRecord(line: string): (r: Option<Record>)
    ensures r.Some? ==> ScanName(line) == Some(r.value.name)
  {
    var n := NameRun(line);
    var min := ScanIntAfter('=', line[n..]);
    if n == 0 || min.None? then None
    else
      var sec := ScanIntAfter(':', min.value.rest);
      if sec.None? then None
      else
        var msec := ScanIntAfter('.', sec.value.rest);
        if msec.None? then None
        else Some(Record(line[..n], Time(min.value.value, sec.value.value, msec.value.value)))
  }

  // ---------------------------------------------------------------------
  // printf
  // ---------------------------------------------------------------------

  function Digit(d: int): char
    requires 0 <= d < 10
  {
    ('0' as int + d) as char
  }

  /** %d of a non-negative value. */
  function Decimal(n: nat): (d: string)
    ensures d != [] && AllDigits(d) && DigitsValue(d) == n
  {
    if n < 10 then
      assert [Digit(n)][..0] == [];
      [Digit(n)]
    else
      var d := Decimal(n / 10) + [Digit(n % 10)];
      assert d[..|d| - 1] == Decimal(n / 10);
      d
  }

  function Zeros(k: int): (z: string)
    ensures |z| == if k <= 0 then 0 else k
    ensures AllDigits(z)
  {
    if k <= 0 then [] else seq(k, _ => '0')
  }

  /** The line written for a record: "%s=%02d:%02d.%03d\n". */
  function FormatRecord(name: string, t: Time): string
  {
    name + ("=" + (PadInt(t.min, 2) + (":" + (PadInt(t.sec, 2) + ("." + (PadInt(t.msec, 3) + "\n"))))))
  }

  /** Leading zeros do not change the value of a digit string. */
  lemma {:induction false} LeadingZeros(k: int, d: string)
    requires AllDigits(d)
    ensures DigitsValue(Zeros(k) + d) == DigitsValue(d)
    decreases |d|
  {
    var z := Zeros(k);
    if d == [] {
      assert z + d == z;
      ZerosValue(k);
    } else {
      assert (z + d)[..|z + d| - 1] == z + d[..|d| - 1];
      LeadingZeros(k, d[..|d| - 1]);
    }
  }

  lemma {:induction false} ZerosValue(k: int)
    ensures DigitsValue(Zeros(k)) == 0
    decreases if k <= 0 then 0 else k
  {
    if k > 0 {
      assert Zeros(k)[..k - 1] == Zeros(k - 1);
      ZerosValue(k - 1);
    }
  }

  /** %d stops at the first character after a run of digits. */
  lemma ScanDigits(digits: string, rest: string)
    requires digits != [] && AllDigits(digits) && rest != [] && !IsDigit(rest[0])
    ensures DigitRun(digits + rest) == |digits|
    ensures (digits + rest)[..|digits|] == digits && (digits + rest)[|digits|..] == rest
  {
    DigitRunExact(digits, rest);
  }

  /** The digits %0wd writes for the magnitude of n. */
  function PaddedDigits(n: int, width: nat): (d: string)
    ensures d != [] && AllDigits(d) && DigitsValue(d) == if n < 0 then -n else n
  {
    var m := if n < 0 then -n else n;
    var z := if n < 0 then width - 1 - |Decimal(m)| else width - |Decimal(m)|;
    LeadingZeros(z, Decimal(m));
    Zeros(z) + Decimal(m)
  }

  /** %0wd: a minus sign for negative n, then the padded digits. */
  function PadInt(n: int, width: nat): string
  {
    if n < 0 then ['-'] + PaddedDigits(n, width) else PaddedDigits(n, width)
  }

  /** %d on unsigned digits followed by a non-digit. */
  lemma ScanUnsigned(digits: string, rest: string)
    requires digits != [] && AllDigits(digits) && rest != [] && !IsDigit(rest[0])
    ensures ScanInt(digits + rest) == Some(Scanned(DigitsValue(digits) as int, rest))
  {
    var s := digits + rest;
    assert s[0] == digits[0];
    assert SpaceRun(s) == 0;
    assert s[0..] == s;
    ScanDigits(digits, rest);
  }

  /** %d on a minus sign and digits followed by a non-digit. */
  lemma ScanNegative(digits: string, rest: string)
    requires digits != [] && AllDigits(digits) && rest != [] && !IsDigit(rest[0])
    ensures ScanInt(['-'] + (digits + rest)) == Some(Scanned(-(DigitsValue(digits) as int), rest))
  {
    var s := ['-'] + (digits + rest);
    assert SpaceRun(s) == 0;
    assert s[0..] == s;
    assert s[1..] == digits + rest;
    ScanDigits(digits, rest);
  }

  /** %d reads back what %0wd wrote, stopping at the next non-digit. */
  lemma ScanPadInt(n: int, width: nat, rest: string)
    requires rest != [] && !IsDigit(rest[0])
    ensures ScanInt(PadInt(n, width) + rest) == Some(Scanned(n, rest))
  {
    var digits := PaddedDigits(n, width);
    if n < 0 {
      assert PadInt(n, width) + rest == ['-'] + (digits + rest);
      ScanNegative(digits, rest);
    } else {
      ScanUnsigned(digits, rest);
    }
  }

  /** %[^=] takes exactly a name without '=' that is followed by '='. */
  lemma ScanNameOf(name: string, rest: string)
    requires name != [] && (forall k | 0 <= k < |name| :: name[k] != '=') && rest != [] && rest[0] == '='
    ensures NameRun(name + rest) == |name|
    ensures (name + rest)[..|name|] == name && (name + rest)[|name|..] == rest
  {
    NameRunExact(name, rest);
  }

  /** c then %d reads back c followed by what %0wd wrote, stopping at the next non-digit. */
  lemma ScanIntAfterPadInt(c: char, n: int, width: nat, rest: string)
    requires rest != [] && !IsDigit(rest[0])
    ensures ScanIntAfter(c, [c] + (PadInt(n, width) + rest)) == Some(Scanned(n, rest))
  {
    assert ([c] + (PadInt(n, width) + rest))[1..] == PadInt(n, width) + rest;
    ScanPadInt(n, width, rest);
  }

  /** Formatting then scanning a record gives it back, for names sscanf can read. */
  lemma RecordRoundTrip(name: string, t: Time)
    requires name != [] && forall k | 0 <= k < |name| :: name[k] != '='
    ensures ScanRecord(FormatRecord(name, t)) == Some(Record(name, t))
  {
    var s3 := PadInt(t.msec, 3) + "\n";
    var s2 := PadInt(t.sec, 2) + ("." + s3);
    var s1 := PadInt(t.min, 2) + (":" + s2);
    var line := FormatRecord(name, t);
    ScanNameOf(name, "=" + s1);
    ScanIntAfterPadInt('=', t.min, 2, ":" + s2);
    ScanIntAfterPadInt(':', t.sec, 2, "." + s3);
    ScanIntAfterPadInt('.', t.msec, 3, "\n");
    assert "=" + s1 == ['='] + s1 && ":" + s2 == [':'] + s2 && "." + s3 == ['.'] + s3;
  }

  // ---------------------------------------------------------------------
  // StoragePB_LoadBestTime
  // ---------------------------------------------------------------------

  /** A line sscanf reads as a record of this map. */
  predicate Matches(line: string, name: string)
  {
    ScanRecord(line).Some? && ScanRecord(line).value.name == name
  }

  /** The time of the first line sscanf reads as a record of the map, if there is one. */
  function FindRecord(lines: seq<string>, name: string): (r: Option<Time>)
  {
    if lines == [] then None
    else if Matches(lines[0], name) then Some(ScanRecord(lines[0]).value.time)
    else FindRecord(lines[1..], name)
  }

  /** FindRecord finds the first matching line, and nothing exactly when no line matches. */
  lemma {:induction false} FindRecordFirst(lines: seq<string>, name: string)
    ensures var r := FindRecord(lines, name);
      (r.None? <==> forall i | 0 <= i < |lines| :: !Matches(lines[i], name)) &&
      (r.Some? ==> exists i | 0 <= i < |lines| ::
        ScanRecord(lines[i]) == Some(Record(name, r.value)) && forall j | 0 <= j < i :: !Matches(lines[j], name))
  {
    if lines != [] {
      FindRecordFirst(lines[1..], name);
      var r := FindRecord(lines, name);
      if Matches(lines[0], name) {
        assert ScanRecord(lines[0]) == Some(Record(name, r.value));
      } else {
        assert forall i | 1 <= i < |lines| :: lines[i] == lines[1..][i - 1];
        if r.Some? {
          var i :| 0 <= i < |lines[1..]| && ScanRecord(lines[1..][i]) == Some(Record(name, r.value))
            && forall j | 0 <= j < i :: !Matches(lines[1..][j], name);
          assert ScanRecord(lines[i + 1]) == Some(Record(name, r.value));
        }
      }
    }
  }

  /** What LoadBestTime reports for a file (None: the file cannot be opened). */
  function LoadedTime(file: Option<string>, m: Map): Option<Time>
  {
    if file.None? then None else FindRecord(FgetsLines(file.value, PB_LINE_BUFFER), MapToString(m))
  }

  /** The read loop of StoragePB_LoadBestTime: stop at the first record of the map. */
  method FindBestTime(lines: seq<string>, name: string) returns (found: Option<Time>)
    ensures found == FindRecord(lines, name)
  {
    var i := 0;
    while i < |lines|
      invariant 0 <= i <= |lines|
      invariant FindRecord(lines[i..], name) == FindRecord(lines, name)
    {
      assert lines[i..][0] == lines[i] && lines[i..][1..] == lines[i + 1..];
      var r := ScanRecord(lines[i]);
      if r.Some? && r.value.name == name {
        return Some(r.value.time);
      }
      i := i + 1;
    }
    return None;
  }

  /**
   * StoragePB_LoadBestTime: the first line whose record names the map,
   * nothing when no line does or the file cannot be opened.
   */
  method LoadBestTime(file: Option<string>, m: Map) returns (found: Option<Time>)
    ensures found == LoadedTime(file, m)
  {
    if file.None? {
      return None;
    }
    found := FindBestTime(FgetsLines(file.value, PB_LINE_BUFFER), MapToString(m));
  }

  // ---------------------------------------------------------------------
  // StoragePB_SaveBestTime
  // ---------------------------------------------------------------------

  /** sscanf(line, "%[^=]=") assigns a name, and it is this map's. */
  predicate HasName(line: string, name: string)
  {
    ScanName(line) == Some(name)
  }

  /** The lines the rewrite keeps: those sscanf can read a name from. */
  function Kept(lines: seq<string>): (k: seq<string>)
    ensures |k| <= |lines|
  {
    if lines == [] then []
    else if ScanName(lines[0]).Some? then [lines[0]] + Kept(lines[1..])
    else Kept(lines[1..])
  }

  /**
   * The read loop of SaveBestTime with `room` buffer slots left: the lines
   * a name can be read from, in order, the map's lines replaced by the new
   * line, cut off when the buffer is full; and whether a line was replaced.
   */
  function Rewrite(lines: seq<string>, name: string, newLine: string, room: nat): (r: (seq<string>, bool))
    ensures |r.0| <= room
    decreases |lines|
  {
    if lines == [] || room == 0 then ([], false)
    else if ScanName(lines[0]).None? then Rewrite(lines[1..], name, newLine, room)
    else
      var rest := Rewrite(lines[1..], name, newLine, room - 1);
      if ScanName(lines[0]).value == name then ([newLine] + rest.0, true)
      else ([lines[0]] + rest.0, rest.1)
  }

  /**
   * The rewrite replaces the map's lines in place and keeps the other
   * readable lines in order, up to the room left; it reports a
   * replacement exactly when one of those lines was the map's.
   */
  lemma {:induction false} RewriteKeepsOrder(lines: seq<string>, name: string, newLine: string, room: nat)
    ensures var r := Rewrite(lines, name, newLine, room);
      |r.0| == Min(|Kept(lines)|, room) &&
      (forall j | 0 <= j < |r.0| :: r.0[j] == if HasName(Kept(lines)[j], name) then newLine else Kept(lines)[j]) &&
      (r.1 <==> exists j | 0 <= j < |r.0| :: HasName(Kept(lines)[j], name))
    decreases |lines|
  {
    if lines == [] || room == 0 {
    } else if ScanName(lines[0]).None? {
      RewriteSkip(lines, name, newLine, room);
      RewriteKeepsOrder(lines[1..], name, newLine, room);
    } else {
      RewriteCons(lines, name, newLine, room);
      RewriteKeepsOrder(lines[1..], name, newLine, room - 1);
      var rest := Rewrite(lines[1..], name, newLine, room - 1);
      var r := Rewrite(lines, name, newLine, room);
      var k := Kept(lines);
      var k1 := Kept(lines[1..]);
      forall j | 0 <= j < |r.0|
        ensures r.0[j] == if HasName(k[j], name) then newLine else k[j]
      {
        if j > 0 {
          assert r.0[j] == rest.0[j - 1] && k[j] == k1[j - 1];
        }
      }
      if HasName(lines[0], name) {
        assert HasName(k[0], name);
      } else if rest.1 {
        var j :| 0 <= j < |rest.0| && HasName(k1[j], name);
        assert HasName(k[j + 1], name);
      }
      if !r.1 {
        forall j | 0 <= j < |r.0|
          ensures !HasName(k[j], name)
        {
          if j > 0 {
            assert k[j] == k1[j - 1];
          }
        }
      }
    }
  }

  /** A line no name can be read from is dropped. */
  lemma RewriteSkip(lines: seq<string>, name: string, newLine: string, room: nat)
    requires lines != [] && room > 0 && ScanName(lines[0]).None?
    ensures Kept(lines) == Kept(lines[1..])
    ensures Rewrite(lines, name, newLine, room) == Rewrite(lines[1..], name, newLine, room)
  {
  }

  /** A line a name can be read from is kept, or replaced when the name is the map's. */
  lemma RewriteCons(lines: seq<string>, name: string, newLine: string, room: nat)
    requires lines != [] && room > 0 && ScanName(lines[0]).Some?
    ensures Kept(lines) == [lines[0]] + Kept(lines[1..])
    ensures var r := Rewrite(lines, name, newLine, room);
      var rest := Rewrite(lines[1..], name, newLine, room - 1);
      r.0 == [if HasName(lines[0], name) then newLine else lines[0]] + rest.0 &&
      r.1 == (HasName(lines[0], name) || rest.1)
  {
  }

  /** The lines SaveBestTime writes back: the rewrite, plus the new line when none was replaced and there is room. */
  function RewrittenLines(lines: seq<string>, name: string, newLine: string): seq<string>
  {
    var r := Rewrite(lines, name, newLine, STORAGE_MAX_MAP_RECORDS);
    if !r.1 && |r.0| < STORAGE_MAX_MAP_RECORDS then r.0 + [newLine] else r.0
  }

  /**
   * What SaveBestTime returns and leaves in the file (None: no file).
   * A record that is not strictly beaten, or a file that cannot be
   * created for writing, gives false and leaves the file as it was.
   */
  function SaveOutcome(file: Option<string>, canWrite: bool, m: Map, t: Time): (r: (bool, Option<string>))
  {
    var previous := LoadedTime(file, m);
    if previous.Some? && !IsTimeFaster(t, previous.value) then (false, file)
    else if !canWrite then (false, file)
    else
      var lines := if file.None? then [] else FgetsLines(file.value, PB_LINE_BUFFER);
      var name := MapToString(m);
      (true, Some(Concat(RewrittenLines(lines, name, FormatRecord(name, t)))))
  }

  /**
   * The state of the read loop of SaveBestTime after i lines: the lines
   * kept so far followed by the rewrite of the rest, in the room left, make
   * the rewrite of the whole file.
   */
  ghost predicate ReadState(all: seq<string>, name: string, newLine: string, i: int, lines: seq<string>, updated: bool)
  {
    0 <= i <= |all| && |lines| <= STORAGE_MAX_MAP_RECORDS &&
    var rest := Rewrite(all[i..], name, newLine, STORAGE_MAX_MAP_RECORDS - |lines|);
    var whole := Rewrite(all, name, newLine, STORAGE_MAX_MAP_RECORDS);
    lines + rest.0 == whole.0 && (updated || rest.1) == whole.1
  }

  /** Reading line i: a line with a name is kept, or replaced when it is the map's; any other line is dropped. */
  lemma ReadStateStep(all: seq<string>, name: string, newLine: string, i: int, lines: seq<string>, updated: bool)
    requires ReadState(all, name, newLine, i, lines, updated) && i < |all| && |lines| < STORAGE_MAX_MAP_RECORDS
    ensures var sc := ScanName(all[i]);
      ReadState(all, name, newLine, i + 1,
                if sc.None? then lines else lines + [if sc.value == name then newLine else all[i]],
                updated || (sc.Some? && sc.value == name))
  {
    var room := STORAGE_MAX_MAP_RECORDS - |lines|;
    assert all[i..][0] == all[i] && all[i..][1..] == all[i + 1..];
    if ScanName(all[i]).None? {
      RewriteSkip(all[i..], name, newLine, room);
    } else {
      RewriteCons(all[i..], name, newLine, room);
      var line := if ScanName(all[i]).value == name then newLine else all[i];
      var rest := Rewrite(all[i + 1..], name, newLine, room - 1);
      assert lines + ([line] + rest.0) == (lines + [line]) + rest.0;
    }
  }

  /** When the file or the room runs out, the lines kept are the whole rewrite. */
  lemma ReadStateEnd(all: seq<string>, name: string, newLine: string, i: int, lines: seq<string>, updated: bool)
    requires ReadState(all, name, newLine, i, lines, updated) && !(i < |all| && |lines| < STORAGE_MAX_MAP_RECORDS)
    ensures (lines, updated) == Rewrite(all, name, newLine, STORAGE_MAX_MAP_RECORDS)
  {
    assert all[i..] == [] || STORAGE_MAX_MAP_RECORDS - |lines| == 0;
    assert lines + [] == lines;
  }

  /** The read loop of StoragePB_SaveBestTime over the lines of the file. */
  method ReadKeptLines(all: seq<string>, name: string, newLine: string) returns (lines: seq<string>, updated: bool)
    ensures (lines, updated) == Rewrite(all, name, newLine, STORAGE_MAX_MAP_RECORDS)
  {
    lines, updated := [], false;
    var i := 0;
    assert all[0..] == all;
    while i < |all| && |lines| < STORAGE_MAX_MAP_RECORDS
      invariant ReadState(all, name, newLine, i, lines, updated)
      decreases |all| - i
    {
      ReadStateStep(all, name, newLine, i, lines, updated);
      var scanned := ScanName(all[i]);
      if scanned.Some? {
        if scanned.value == name {
          lines := lines + [newLine];
          updated := true;
        } else {
          lines := lines + [all[i]];
        }
      }
      i := i + 1;
    }
    ReadStateEnd(all, name, newLine, i, lines, updated);
  }

  /** StoragePB_SaveBestTime. */
  method SaveBestTime(file: Option<string>, canWrite: bool, m: Map, t: Time) returns (ok: bool, newFile: Option<string>)
    ensures (ok, newFile) == SaveOutcome(file, canWrite, m, t)
  {
    var previous := LoadBestTime(file, m);
    if previous.Some? && !IsTimeFaster(t, previous.value) {
      return false, file;
    }
    var name := MapToString(m);
    var newLine := FormatRecord(name, t);
    var all: seq<string> := if file.None? then [] else FgetsLines(file.value, PB_LINE_BUFFER);
    var lines, updated := ReadKeptLines(all, name, newLine);
    if !updated && |lines| < STORAGE_MAX_MAP_RECORDS {
      lines := lines + [newLine];
    }
    if !canWrite {
      return false, file;
    }
    return true, Some(Concat(lines));
  }
  // ---------------------------------------------------------------------
  // Properties of Save and Load together
  // ---------------------------------------------------------------------

  /** Saving never happens over a record the new time does not strictly beat. */
  lemma SaveRejectsSlower(file: Option<string>, canWrite: bool, m: Map, t: Time)
    requires LoadedTime(file, m).Some? && !IsTimeFaster(t, LoadedTime(file, m).value)
    ensures SaveOutcome(file, canWrite, m, t) == (false, file)
  {
  }

  /** A file that cannot be created for writing is left as it was. */
  lemma SaveNeedsWritableFile(file: Option<string>, m: Map, t: Time)
    ensures SaveOutcome(file, false, m, t) == (false, file)
  {
  }

  /**
   * Looking for the map in rewritten lines followed by `tail` finds the new
   * record when the rewrite replaced a line, and otherwise looks in the tail.
   */
  lemma {:induction false} FindInRewrite(lines: seq<string>, name: string, newLine: string, t: Time, room: nat, tail: seq<string>)
    requires Matches(newLine, name) && ScanRecord(newLine).value.time == t
    ensures var r := Rewrite(lines, name, newLine, room);
      FindRecord(r.0 + tail, name) == if r.1 then Some(t) else FindRecord(tail, name)
    decreases |lines|
  {
    var r := Rewrite(lines, name, newLine, room);
    if lines == [] || room == 0 {
      assert r.0 + tail == tail;
    } else if ScanName(lines[0]).None? {
      FindInRewrite(lines[1..], name, newLine, t, room, tail);
    } else if ScanName(lines[0]).value == name {
      FindInRewriteHead(lines, name, newLine, t, room, tail);
    } else {
      FindInRewrite(lines[1..], name, newLine, t, room - 1, tail);
      FindInRewriteOther(lines, name, newLine, room, tail);
    }
  }

  /** A rewrite that starts by replacing the map's line finds the new record first. */
  lemma FindInRewriteHead(lines: seq<string>, name: string, newLine: string, t: Time, room: nat, tail: seq<string>)
    requires lines != [] && room > 0 && ScanName(lines[0]) == Some(name)
    requires Matches(newLine, name) && ScanRecord(newLine).value.time == t
    ensures var r := Rewrite(lines, name, newLine, room);
      r.1 && FindRecord(r.0 + tail, name) == Some(t)
  {
    var rest := Rewrite(lines[1..], name, newLine, room - 1);
    FindRecordCons(newLine, rest.0 + tail, name);
    assert Rewrite(lines, name, newLine, room).0 + tail == [newLine] + (rest.0 + tail);
  }

  /** A rewrite that starts by keeping another map's line searches on past it. */
  lemma FindInRewriteOther(lines: seq<string>, name: string, newLine: string, room: nat, tail: seq<string>)
    requires lines != [] && room > 0 && ScanName(lines[0]).Some? && ScanName(lines[0]).value != name
    ensures var r := Rewrite(lines, name, newLine, room);
      var rest := Rewrite(lines[1..], name, newLine, room - 1);
      r.1 == rest.1 && FindRecord(r.0 + tail, name) == FindRecord(rest.0 + tail, name)
  {
    var rest := Rewrite(lines[1..], name, newLine, room - 1);
    OtherNameNoMatch(lines[0], name);
    FindRecordCons(lines[0], rest.0 + tail, name);
    assert Rewrite(lines, name, newLine, room).0 + tail == [lines[0]] + (rest.0 + tail);
  }

  lemma FindRecordCons(line: string, rest: seq<string>, name: string)
    ensures FindRecord([line] + rest, name) ==
      if Matches(line, name) then Some(ScanRecord(line).value.time) else FindRecord(rest, name)
  {
    assert ([line] + rest)[0] == line && ([line] + rest)[1..] == rest;
  }

  /** A line whose name is another map's is no record of this one. */
  lemma OtherNameNoMatch(line: string, name: string)
    requires ScanName(line).Some? && ScanName(line).value != name
    ensures !Matches(line, name)
  {
  }

  /** Every line of a rewrite is the new line or one of the lines read. */
  lemma {:induction false} RewriteFullLines(lines: seq<string>, name: string, newLine: string, room: nat)
    requires forall k | 0 <= k < |lines| :: FullLine(lines[k], PB_LINE_BUFFER)
    requires FullLine(newLine, PB_LINE_BUFFER)
    ensures var r := Rewrite(lines, name, newLine, room);
      forall k | 0 <= k < |r.0| :: FullLine(r.0[k], PB_LINE_BUFFER)
    decreases |lines|
  {
    if lines != [] && room != 0 {
      assert forall k | 0 <= k < |lines[1..]| :: lines[1..][k] == lines[k + 1];
      var room' := if ScanName(lines[0]).None? then room else room - 1;
      RewriteFullLines(lines[1..], name, newLine, room');
      var r := Rewrite(lines, name, newLine, room);
      var rest := Rewrite(lines[1..], name, newLine, room');
      assert forall k | 0 <= k < |rest.0| :: FullLine(rest.0[k], PB_LINE_BUFFER) by {
        assert var rr := Rewrite(lines[1..], name, newLine, room');
          forall k | 0 <= k < |rr.0| :: FullLine(rr.0[k], PB_LINE_BUFFER);
      }
      if ScanName(lines[0]).Some? {
        assert forall k | 1 <= k < |r.0| :: r.0[k] == rest.0[k - 1];
        assert r.0[0] == newLine || r.0[0] == lines[0];
      }
    }
  }

  /** Nothing in s is a newline. */
  predicate NoNewline(s: string)
  {
    forall k | 0 <= k < |s| :: s[k] != '\n'
  }

  lemma NoNewlineAppend(a: string, b: string)
    requires NoNewline(a) && NoNewline(b)
    ensures NoNewline(a + b)
  {
    assert forall k | |a| <= k < |a + b| :: (a + b)[k] == b[k - |a|];
  }

  /** %d writes at most two digits below 100 and at most three below 1000. */
  lemma DecimalLength(n: nat)
    ensures n < 100 ==> |Decimal(n)| <= 2
    ensures n < 1000 ==> |Decimal(n)| <= 3
  {
    if n >= 10 {
      assert |Decimal(n)| == |Decimal(n / 10)| + 1;
      if n >= 100 {
        assert |Decimal(n / 10)| == |Decimal(n / 100)| + 1;
      }
    }
  }

  /** %0wd of a value below 10^w is exactly w digits. */
  lemma PadIntWidth(n: nat, width: nat)
    requires width == 2 || width == 3
    requires if width == 2 then n < 100 else n < 1000
    ensures |PadInt(n, width)| == width && AllDigits(PadInt(n, width))
  {
    DecimalLength(n);
  }

  lemma DigitsNoNewline(d: string)
    requires AllDigits(d)
    ensures NoNewline(d)
  {
  }

  /** A chronometer time below 100 minutes is written as one whole line of the file. */
  lemma FormatRecordFits(m: Map, t: Time)
    requires ValidTime(t) && t.min < 100
    ensures FullLine(FormatRecord(MapToString(m), t), PB_LINE_BUFFER)
  {
    var name := MapToString(m);
    var a := PadInt(t.min, 2);
    var b := PadInt(t.sec, 2);
    var c := PadInt(t.msec, 3);
    PadIntWidth(t.min, 2);
    PadIntWidth(t.sec, 2);
    PadIntWidth(t.msec, 3);
    DigitsNoNewline(a);
    DigitsNoNewline(b);
    DigitsNoNewline(c);
    var body := name + ("=" + (a + (":" + (b + ("." + c)))));
    NoNewlineAppend(b, "." + c);
    NoNewlineAppend(":", b + ("." + c));
    NoNewlineAppend(a, ":" + (b + ("." + c)));
    NoNewlineAppend("=", a + (":" + (b + ("." + c))));
    NoNewlineAppend(name, "=" + (a + (":" + (b + ("." + c)))));
    assert NoNewline("." + c) by { NoNewlineAppend(".", c); }
    assert FormatRecord(name, t) == body + "\n";
    assert |name| <= 14;
  }

  /**
   * A successful save of t, read back, yields t, except when the table
   * was already full with ten readable lines of other maps: then the
   * save still succeeds but the file holds no record of the map at all.
   * The file is assumed to consist of whole lines.
   */
  lemma SaveThenLoad(file: Option<string>, canWrite: bool, m: Map, t: Time)
    requires file.Some? ==> forall k | 0 <= k < |FgetsLines(file.value, PB_LINE_BUFFER)| ::
      FullLine(FgetsLines(file.value, PB_LINE_BUFFER)[k], PB_LINE_BUFFER)
    requires ValidTime(t) && t.min < 100
    ensures var (ok, newFile) := SaveOutcome(file, canWrite, m, t);
      var lines := if file.None? then [] else FgetsLines(file.value, PB_LINE_BUFFER);
      var kept := Kept(lines);
      var recorded := |kept| < STORAGE_MAX_MAP_RECORDS ||
        exists j | 0 <= j < STORAGE_MAX_MAP_RECORDS :: HasName(kept[j], MapToString(m));
      ok ==> LoadedTime(newFile, m) == if recorded then Some(t) else None
  {
    var name := MapToString(m);
    var newLine := FormatRecord(name, t);
    var lines := if file.None? then [] else FgetsLines(file.value, PB_LINE_BUFFER);
    var r := Rewrite(lines, name, newLine, STORAGE_MAX_MAP_RECORDS);
    var written := RewrittenLines(lines, name, newLine);
    RecordRoundTrip(name, t);
    FormatRecordFits(m, t);
    RewrittenFullLines(lines, name, newLine);
    ReadBackFullLines(written, PB_LINE_BUFFER);
    RewrittenFindsRecord(lines, name, newLine, t);
  }

  /** One line of the rewrite is a whole line. */
  lemma RewriteLineFull(lines: seq<string>, name: string, newLine: string, room: nat, k: int)
    requires forall k | 0 <= k < |lines| :: FullLine(lines[k], PB_LINE_BUFFER)
    requires FullLine(newLine, PB_LINE_BUFFER)
    requires 0 <= k < |Rewrite(lines, name, newLine, room).0|
    ensures FullLine(Rewrite(lines, name, newLine, room).0[k], PB_LINE_BUFFER)
  {
    RewriteFullLines(lines, name, newLine, room);
  }

  /** Every line written back is a whole line when the lines read and the new line are. */
  lemma RewrittenFullLines(lines: seq<string>, name: string, newLine: string)
    requires forall k | 0 <= k < |lines| :: FullLine(lines[k], PB_LINE_BUFFER)
    requires FullLine(newLine, PB_LINE_BUFFER)
    ensures var w := RewrittenLines(lines, name, newLine);
      forall k | 0 <= k < |w| :: FullLine(w[k], PB_LINE_BUFFER)
  {
    var r := Rewrite(lines, name, newLine, STORAGE_MAX_MAP_RECORDS);
    RewriteFullLines(lines, name, newLine, STORAGE_MAX_MAP_RECORDS);
    var w := RewrittenLines(lines, name, newLine);
    forall k | 0 <= k < |w|
      ensures FullLine(w[k], PB_LINE_BUFFER)
    {
      if k < |r.0| {
        assert w[k] == r.0[k];
        RewriteLineFull(lines, name, newLine, STORAGE_MAX_MAP_RECORDS, k);
      } else {
        assert w[k] == newLine;
      }
    }
  }

  /**
   * The rewritten lines hold a record of the map, the new one, unless the
   * table was full with lines of other maps.
   */
  lemma RewrittenFindsRecord(lines: seq<string>, name: string, newLine: string, t: Time)
    requires Matches(newLine, name) && ScanRecord(newLine).value.time == t
    ensures var kept := Kept(lines);
      var recorded := |kept| < STORAGE_MAX_MAP_RECORDS ||
        exists j | 0 <= j < STORAGE_MAX_MAP_RECORDS :: HasName(kept[j], name);
      FindRecord(RewrittenLines(lines, name, newLine), name) == if recorded then Some(t) else None
  {
    var r := Rewrite(lines, name, newLine, STORAGE_MAX_MAP_RECORDS);
    RewriteKeepsOrder(lines, name, newLine, STORAGE_MAX_MAP_RECORDS);
    var tail: seq<string> := if !r.1 && |r.0| < STORAGE_MAX_MAP_RECORDS then [newLine] else [];
    assert RewrittenLines(lines, name, newLine) == r.0 + tail;
    FindInRewrite(lines, name, newLine, t, STORAGE_MAX_MAP_RECORDS, tail);
    if tail != [] {
      FindRecordCons(newLine, [], name);
      assert tail == [newLine] + [];
    }
  }
}
