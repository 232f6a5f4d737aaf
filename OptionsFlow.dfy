/** The data-handling helpers of the options flow (options_flow.py): parsing a
    device id typed as comma-separated hex, recognising a device's kind from
    its registry identifiers, switch-channel normalisation, and the merge of
    per-platform device options into the config entry's data. */
module OptionsFlow {
  import opened Telegrams
  import Switch
  import Light
  import ButtonEvent

  // ---------------------------------------------------------------------
  // str.split with a one-character separator
  // ---------------------------------------------------------------------

  /** Pieces joined back together with the separator between them. */
  function Join(parts: seq<string>, sep: char): string
    requires |parts| >= 1
    decreases |parts|
  {
    if |parts| == 1 then parts[0] else parts[0] + [sep] + Join(parts[1..], sep)
  }

  /** Python's `s.split(sep)`: the maximal separator-free pieces, in order;
      the empty string gives one empty piece. */
  function Split(s: string, sep: char): (parts: seq<string>)
    ensures |parts| >= 1
    ensures forall i :: 0 <= i < |parts| ==> sep !in parts[i]
    ensures Join(parts, sep) == s
    decreases |s|
  {
    if s == [] then [""]
    else
      var rest := Split(s[1..], sep);
      if s[0] == sep then
        assert Join([""] + rest, sep) == [sep] + Join(rest, sep) by {
          assert ([""] + rest)[1..] == rest;
        }
        [""] + rest
      else
        var parts := [[s[0]] + rest[0]] + rest[1..];
        assert Join(parts, sep) == [s[0]] + Join(rest, sep) by {
          if |rest| > 1 {
            assert parts[1..] == rest[1..];
          }
        }
        assert s == [s[0]] + s[1..];
        parts
  }

  lemma {:induction false} SplitWithoutSeparator(s: string, sep: char)
    requires sep !in s
    ensures Split(s, sep) == [s]
    decreases |s|
  {
    if s != [] {
      SplitWithoutSeparator(s[1..], sep);
    }
  }

  lemma {:induction false} SplitAfterFirstPiece(a: string, sep: char, b: string)
    requires sep !in a
    ensures Split(a + [sep] + b, sep) == [a] + Split(b, sep)
    decreases |a|
  {
    var s := a + [sep] + b;
    if a == [] {
      assert s[1..] == b;
    } else {
      assert s[1..] == a[1..] + [sep] + b;
      SplitAfterFirstPiece(a[1..], sep, b);
      assert [a[0]] + a[1..] == a;
    }
  }

  /** Splitting undoes joining, for pieces free of the separator. */
  lemma {:induction false} SplitJoin(parts: seq<string>, sep: char)
    requires |parts| >= 1
    requires forall i :: 0 <= i < |parts| ==> sep !in parts[i]
    ensures Split(Join(parts, sep), sep) == parts
    decreases |parts|
  {
    if |parts| == 1 {
      SplitWithoutSeparator(parts[0], sep);
    } else {
      SplitJoin(parts[1..], sep);
      SplitAfterFirstPiece(parts[0], sep, Join(parts[1..], sep));
    }
  }

  // ---------------------------------------------------------------------
  // int(x, 16) and hex(x)
  // ---------------------------------------------------------------------

  /** The ASCII white space `int` skips around a literal. */
  predicate IsSpace(c: char)
  {
    c == ' ' || c == '\t' || c == '\n' || c == '\r' || c as int == 0x0B || c as int == 0x0C
  }

  function StripLeading(s: string): string
    decreases |s|
  {
    if |s| > 0 && IsSpace(s[0]) then StripLeading(s[1..]) else s
  }

  function StripTrailing(s: string): string
    decreases |s|
  {
    if |s| > 0 && IsSpace(s[|s| - 1]) then StripTrailing(s[..|s| - 1]) else s
  }

  predicate IsHexDigit(c: char)
  {
    ('0' <= c <= '9') || ('a' <= c <= 'f') || ('A' <= c <= 'F')
  }

  /** The value of a hex digit (0 for any other character). */
  function DigitValue(c: char): nat
  {
    if '0' <= c <= '9' then c as int - '0' as int
    else if 'a' <= c <= 'f' then c as int - 'a' as int + 10
    else if 'A' <= c <= 'F' then c as int - 'A' as int + 10
    else 0
  }

  /** The digit part of a literal `int` accepts: hex digits, with single
      underscores allowed between two digits. */
  predicate WellFormedDigits(d: string)
  {
    && |d| > 0 && IsHexDigit(d[0]) && IsHexDigit(d[|d| - 1])
    && (forall i :: 0 <= i < |d| ==> IsHexDigit(d[i]) || d[i] == '_')
    && (forall i :: 0 <= i < |d| - 1 ==> !(d[i] == '_' && d[i + 1] == '_'))
  }

  /** The number the digits spell, underscores skipped. */
  function DigitsValue(d: string): nat
    decreases |d|
  {
    if d == [] then 0
    else if d[|d| - 1] == '_' then DigitsValue(d[..|d| - 1])
    else 16 * DigitsValue(d[..|d| - 1]) + DigitValue(d[|d| - 1])
  }

  /** The digits after an optional `0x` / `0X` prefix, and the one underscore
      allowed straight after the prefix. */
  function AfterPrefix(u: string): string
  {
    if |u| >= 2 && u[0] == '0' && (u[1] == 'x' || u[1] == 'X') then
      if |u| >= 3 && u[2] == '_' then u[3..] else u[2..]
    else u
  }

  /** Python's `int(x, 16)`: None where it raises ValueError. Surrounding white
      space is ignored; a sign, a `0x` prefix and digit-separating underscores
      are accepted. */
  function ParseHexInt(x: string): (r: Option<int>)
    ensures x == [] ==> r.None?
    ensures WellFormedDigits(x) ==> r == Some(DigitsValue(x))
    ensures |x| >= 3 && x[..2] == "0x" && WellFormedDigits(x[2..]) ==> r == Some(DigitsValue(x[2..]))
    ensures |x| >= 2 && x[0] == '-' && WellFormedDigits(x[1..]) ==> r == Some(-(DigitsValue(x[1..]) as int))
  {
    assert WellFormedDigits(x) ==> AfterPrefix(x) == x by {
      if WellFormedDigits(x) && |x| >= 2 {
        assert IsHexDigit(x[1]) || x[1] == '_';
      }
    }
    assert |x| >= 2 && x[0] == '-' && WellFormedDigits(x[1..]) ==> AfterPrefix(x[1..]) == x[1..] by {
      if |x| >= 3 && x[0] == '-' && WellFormedDigits(x[1..]) {
        assert IsHexDigit(x[1..][1]) || x[1..][1] == '_';
      }
    }
    var t := StripTrailing(StripLeading(x));
    var digits := AfterPrefix(Unsigned(t));
    if !WellFormedDigits(digits) then None
    else
      var magnitude: int := DigitsValue(digits);
      Some(if Negative(t) then -magnitude else magnitude)
  }

  /** A stripped literal without its sign. */
  function Unsigned(t: string): string
  {
    if |t| > 0 && (t[0] == '-' || t[0] == '+') then t[1..] else t
  }

  predicate Negative(t: string)
  {
    |t| > 0 && t[0] == '-'
  }

  /** Only white space. */
  predicate AllSpace(s: string)
  {
    forall i :: 0 <= i < |s| ==> IsSpace(s[i])
  }

  /** The literals `int(x, 16)` accepts: white space, an optional sign, an
      optional `0x` / `0X` prefix (with one underscore after it), well-formed
      digits, white space. */
  predicate LiteralParts(x: string, lead: string, sign: string, prefix: string, digits: string, trail: string)
  {
    && x == lead + sign + prefix + digits + trail
    && AllSpace(lead) && AllSpace(trail)
    && (sign == "" || sign == "-" || sign == "+")
    && (prefix == "" || prefix == "0x" || prefix == "0X" || prefix == "0x_" || prefix == "0X_")
    && WellFormedDigits(digits)
  }

  /** The value a literal spells, negated after a minus sign. */
  function SignedValue(sign: string, digits: string): int
  {
    if sign == "-" then -(DigitsValue(digits) as int) else DigitsValue(digits)
  }

  lemma StripLeadingSpaces(lead: string, rest: string)
    requires AllSpace(lead)
    requires rest == [] || !IsSpace(rest[0])
    ensures StripLeading(lead + rest) == rest
    decreases |lead|
  {
    if lead == [] {
      assert lead + rest == rest;
    } else {
      assert (lead + rest)[1..] == lead[1..] + rest;
      StripLeadingSpaces(lead[1..], rest);
    }
  }

  lemma StripTrailingSpaces(core: string, trail: string)
    requires AllSpace(trail)
    requires core == [] || !IsSpace(core[|core| - 1])
    ensures StripTrailing(core + trail) == core
    decreases |trail|
  {
    if trail == [] {
      assert core + trail == core;
    } else {
      assert (core + trail)[..|core + trail| - 1] == core + trail[..|trail| - 1];
      StripTrailingSpaces(core, trail[..|trail| - 1]);
    }
  }

  /** What `StripLeading` removes is white space, and what it keeps does not
      start with white space. */
  lemma StripLeadingShape(s: string)
    ensures |StripLeading(s)| <= |s|
    ensures StripLeading(s) == s[|s| - |StripLeading(s)|..]
    ensures AllSpace(s[..|s| - |StripLeading(s)|])
    ensures StripLeading(s) == [] || !IsSpace(StripLeading(s)[0])
    decreases |s|
  {
    if |s| > 0 && IsSpace(s[0]) {
      StripLeadingShape(s[1..]);
      var n := |s| - |StripLeading(s)|;
      assert s[..n] == [s[0]] + s[1..][..n - 1];
    }
  }

  /** What `StripTrailing` removes is white space, and what it keeps does not
      end with white space. */
  lemma StripTrailingShape(s: string)
    ensures |StripTrailing(s)| <= |s|
    ensures StripTrailing(s) == s[..|StripTrailing(s)|]
    ensures AllSpace(s[|StripTrailing(s)|..])
    ensures StripTrailing(s) == [] || !IsSpace(StripTrailing(s)[|StripTrailing(s)| - 1])
    decreases |s|
  {
    if |s| > 0 && IsSpace(s[|s| - 1]) {
      var u := s[..|s| - 1];
      StripTrailingShape(u);
      var n := |StripTrailing(s)|;
      assert s[n..] == u[n..] + [s[|s| - 1]];
    }
  }

  /** `AfterPrefix` drops nothing but one of the accepted prefixes. */
  lemma AfterPrefixShape(u: string)
    ensures |AfterPrefix(u)| <= |u|
    ensures u == u[..|u| - |AfterPrefix(u)|] + AfterPrefix(u)
    ensures var p := u[..|u| - |AfterPrefix(u)|];
      p == "" || p == "0x" || p == "0X" || p == "0x_" || p == "0X_"
  {
    if |u| >= 2 && u[0] == '0' && (u[1] == 'x' || u[1] == 'X') {
      if |u| >= 3 && u[2] == '_' {
        assert u == u[..3] + u[3..];
      } else {
        assert u == u[..2] + u[2..];
      }
    } else {
      assert u == u[..0] + u;
    }
  }

  /** Sign handling leaves the prefixed digits of a stripped literal. */
  lemma SignedDigits(sign: string, prefix: string, digits: string)
    requires sign == "" || sign == "-" || sign == "+"
    requires prefix == "" || prefix == "0x" || prefix == "0X" || prefix == "0x_" || prefix == "0X_"
    requires WellFormedDigits(digits)
    ensures AfterPrefix(Unsigned(sign + prefix + digits)) == digits
    ensures Negative(sign + prefix + digits) <==> sign == "-"
  {
    var t := sign + prefix + digits;
    var u := prefix + digits;
    if sign == "" {
      assert t == u;
      assert t[0] == (if prefix == "" then digits[0] else '0');
    } else {
      assert t[1..] == u;
    }
    assert Unsigned(t) == u;
    PrefixedDigits(prefix, digits);
  }

  /** Prefix handling leaves the digits. */
  lemma PrefixedDigits(prefix: string, digits: string)
    requires prefix == "" || prefix == "0x" || prefix == "0X" || prefix == "0x_" || prefix == "0X_"
    requires WellFormedDigits(digits)
    ensures AfterPrefix(prefix + digits) == digits
  {
    var u := prefix + digits;
    if prefix == "" {
      assert u == digits;
      if |digits| >= 2 {
        assert IsHexDigit(digits[1]) || digits[1] == '_';
      }
    } else if |prefix| == 2 {
      assert u[2..] == digits;
      assert u[2] == digits[0];
    } else {
      assert u[3..] == digits;
    }
  }

  /** White space around a literal is stripped. */
  lemma StripLiteral(x: string, lead: string, core: string, trail: string)
    requires x == lead + core + trail
    requires AllSpace(lead) && AllSpace(trail)
    requires core != [] && !IsSpace(core[0]) && !IsSpace(core[|core| - 1])
    ensures StripTrailing(StripLeading(x)) == core
  {
    assert x == lead + (core + trail);
    assert (core + trail)[0] == core[0];
    StripLeadingSpaces(lead, core + trail);
    StripTrailingSpaces(core, trail);
  }

  /** Every literal of the grammar parses, to the value it spells. */
  lemma ParseHexIntAccepts(x: string, lead: string, sign: string, prefix: string, digits: string, trail: string)
    requires LiteralParts(x, lead, sign, prefix, digits, trail)
    ensures ParseHexInt(x) == Some(SignedValue(sign, digits))
  {
    var core := sign + prefix + digits;
    assert x == lead + core + trail;
    assert core[0] == (if sign != "" then sign[0] else if prefix != "" then '0' else digits[0]);
    assert core[|core| - 1] == digits[|digits| - 1];
    StripLiteral(x, lead, core, trail);
    SignedDigits(sign, prefix, digits);
  }

  /** A string is its stripped part between two runs of white space. */
  lemma StripShape(x: string) returns (lead: string, trail: string)
    ensures x == lead + StripTrailing(StripLeading(x)) + trail
    ensures AllSpace(lead) && AllSpace(trail)
  {
    var l := StripLeading(x);
    StripLeadingShape(x);
    StripTrailingShape(l);
    var t := StripTrailing(l);
    lead := x[..|x| - |l|];
    trail := l[|t|..];
    assert l == t + trail;
    assert x == lead + l;
  }

  /** A stripped literal is its sign followed by `Unsigned`. */
  lemma SignShape(t: string) returns (sign: string)
    ensures t == sign + Unsigned(t)
    ensures sign == "" || sign == "-" || sign == "+"
  {
    if |t| > 0 && (t[0] == '-' || t[0] == '+') {
      sign := t[..1];
      assert t == t[..1] + t[1..];
    } else {
      sign := "";
    }
  }

  /** What `int(x, 16)` accepts has well-formed digits once stripped,
      unsigned and unprefixed. */
  lemma AcceptedDigits(x: string)
    ensures ParseHexInt(x).Some? ==> WellFormedDigits(AfterPrefix(Unsigned(StripTrailing(StripLeading(x)))))
  {
  }

  /** The pieces found by stripping, unsigning and unprefixing make a literal. */
  lemma LiteralOfPieces(x: string, lead: string, t: string, trail: string, sign: string, prefix: string, digits: string)
    requires x == lead + t + trail && t == sign + (prefix + digits)
    requires AllSpace(lead) && AllSpace(trail)
    requires sign == "" || sign == "-" || sign == "+"
    requires prefix == "" || prefix == "0x" || prefix == "0X" || prefix == "0x_" || prefix == "0X_"
    requires WellFormedDigits(digits)
    ensures LiteralParts(x, lead, sign, prefix, digits, trail)
  {
    assert x == lead + sign + prefix + digits + trail;
  }

  /** Every string `int(x, 16)` accepts is a literal of the grammar: anything
      else (a stray character, a bare prefix, a misplaced underscore, an
      empty digit part) raises ValueError. */
  lemma ParseHexIntRejects(x: string)
    ensures ParseHexInt(x).Some? ==>
      exists lead, sign, prefix, digits, trail :: LiteralParts(x, lead, sign, prefix, digits, trail)
  {
    AcceptedDigits(x);
    LiteralOfDigits(x);
  }

  /** A string whose stripped, unsigned, unprefixed part is well-formed
      digits is a literal of the grammar. */
  lemma LiteralOfDigits(x: string)
    ensures WellFormedDigits(AfterPrefix(Unsigned(StripTrailing(StripLeading(x))))) ==>
      exists lead, sign, prefix, digits, trail :: LiteralParts(x, lead, sign, prefix, digits, trail)
  {
    var t := StripTrailing(StripLeading(x));
    var unsigned := Unsigned(t);
    var digits := AfterPrefix(unsigned);
    if WellFormedDigits(digits) {
      var lead, trail := StripShape(x);
      var sign := SignShape(t);
      AfterPrefixShape(unsigned);
      var prefix := unsigned[..|unsigned| - |digits|];
      LiteralOfPieces(x, lead, t, trail, sign, prefix, digits);
    }
  }

  /** The lower-case hex digit for 0..15. */
  function DigitChar(d: nat): (c: char)
    requires d < 16
    ensures IsHexDigit(c) && DigitValue(c) == d
    ensures !('A' <= c <= 'F')
  {
    if d < 10 then ('0' as int + d) as char else ('a' as int + d - 10) as char
  }

  /** The digits of `hex(n)`, most significant first, without leading zeros. */
  function HexDigits(n: nat): (s: string)
    ensures |s| >= 1 && forall i :: 0 <= i < |s| ==> IsHexDigit(s[i]) && !('A' <= s[i] <= 'F')
    ensures s[0] != '0' || n == 0
    ensures DigitsValue(s) == n
    decreases n
  {
    if n < 16 then
      assert [DigitChar(n)][..0] == [];
      [DigitChar(n)]
    else
      var s := HexDigits(n / 16) + [DigitChar(n % 16)];
      assert s[..|s| - 1] == HexDigits(n / 16);
      s
  }

  /** Python's `hex(n)` for n >= 0. */
  function PythonHex(n: nat): (s: string)
    ensures ',' !in s
    ensures |s| >= 3 && s[..2] == "0x"
    ensures WellFormedDigits(s[2..]) && DigitsValue(s[2..]) == n
    ensures forall i :: 2 <= i < |s| ==> !('A' <= s[i] <= 'F')
  {
    var s := "0x" + HexDigits(n);
    assert s[2..] == HexDigits(n);
    s
  }

  /** `int(hex(n), 16) == n`. */
  lemma ParseHexOfPythonHex(n: nat)
    ensures ParseHexInt(PythonHex(n)) == Some(n)
  {
  }

  // ---------------------------------------------------------------------
  // device_id_or_none
  // ---------------------------------------------------------------------

  /** `list(map(lambda x: int(x, 16), pieces))`, None where a piece raises. */
  function ParseAll(pieces: seq<string>): (r: Option<seq<int>>)
    ensures r.Some? <==> forall i :: 0 <= i < |pieces| ==> ParseHexInt(pieces[i]).Some?
    ensures r.Some? ==> |r.value| == |pieces|
    ensures r.Some? ==> forall i :: 0 <= i < |pieces| ==> ParseHexInt(pieces[i]) == Some(r.value[i])
    decreases |pieces|
  {
    if pieces == [] then Some([])
    else
      var head := ParseHexInt(pieces[0]);
      var tail := ParseAll(pieces[1..]);
      if head.None? then None
      else if tail.None? then
        assert !ParseHexInt(pieces[1..][0]).Some? || exists i :: 0 <= i < |pieces| - 1 && !ParseHexInt(pieces[1..][i]).Some?;
        None
      else
        var r := [head.value] + tail.value;
        assert forall i :: 1 <= i < |pieces| ==> pieces[i] == pieces[1..][i - 1];
        Some(r)
  }

  predicate IsByte(v: int)
  {
    0 <= v <= 255
  }

  /** A piece of a device id that `device_id_or_none` accepts. */
  predicate ByteText(piece: string)
  {
    ParseHexInt(piece).Some? && IsByte(ParseHexInt(piece).value)
  }

  /** `device_id_or_none`: the bytes of a comma-separated hex id, one per
      piece and in order, or None when any piece is not hex or not a byte. */
  function DeviceIdOrNone(input: string): (r: Option<seq<int>>)
    ensures r.Some? ==> forall i :: 0 <= i < |Split(input, ',')| ==> ByteText(Split(input, ',')[i])
    ensures r.None? ==> exists i :: 0 <= i < |Split(input, ',')| && !ByteText(Split(input, ',')[i])
    ensures r.Some? ==> |r.value| == |Split(input, ',')|
    ensures r.Some? ==> forall i :: 0 <= i < |r.value| ==>
                          IsByte(r.value[i]) && ParseHexInt(Split(input, ',')[i]) == Some(r.value[i])
  {
    var pieces := Split(input, ',');
    var values := ParseAll(pieces);
    if values.None? then
      var i :| 0 <= i < |pieces| && !ParseHexInt(pieces[i]).Some?;
      assert !ByteText(pieces[i]);
      None
    else if !(forall i :: 0 <= i < |values.value| ==> IsByte(values.value[i])) then None
    else values
  }

  /** The text the switch options form shows for a stored id:
      `",".join(map(lambda x: hex(x), ids))`. */
  function FormatDeviceId(ids: seq<nat>): (s: string)
    requires |ids| >= 1
    ensures |Split(s, ',')| == |ids|
    ensures forall i :: 0 <= i < |ids| ==> Split(s, ',')[i] == PythonHex(ids[i])
  {
    var pieces := seq(|ids|, i requires 0 <= i < |ids| => PythonHex(ids[i]));
    SplitJoin(pieces, ',');
    Join(pieces, ',')
  }

  /** The form's text for a stored id parses back to that id. */
  lemma DeviceIdRoundTrip(ids: seq<nat>)
    requires |ids| >= 1
    requires forall i :: 0 <= i < |ids| ==> IsByte(ids[i])
    ensures DeviceIdOrNone(FormatDeviceId(ids)) == Some(ids)
  {
    var pieces := Split(FormatDeviceId(ids), ',');
    forall i | 0 <= i < |ids|
      ensures ParseHexInt(pieces[i]) == Some(ids[i] as int)
    {
      ParseHexOfPythonHex(ids[i]);
    }
    var parsed := ParseAll(pieces);
    assert parsed.value == ids;
  }

  /** The empty input is no device id. */
  lemma EmptyDeviceIdRejected()
    ensures DeviceIdOrNone("") == None
  {
    assert Split("", ',') == [""];
    assert !ByteText(Split("", ',')[0]);
  }

  // ---------------------------------------------------------------------
  // get_enocean_id / is_device_type
  // ---------------------------------------------------------------------

  predicate OccursAt(s: string, sub: string, i: int)
  {
    0 <= i <= |s| - |sub| && s[i..i + |sub|] == sub
  }

  /** Python's `sub in s`. */
  function Contains(s: string, sub: string): (b: bool)
    ensures b <==> exists i :: OccursAt(s, sub, i)
    decreases |s|
  {
    if |sub| <= |s| && s[..|sub|] == sub then
      assert OccursAt(s, sub, 0);
      true
    else if |s| == 0 then
      false
    else
      var b := Contains(s[1..], sub);
      assert b ==> exists i :: OccursAt(s, sub, i) by {
        if b {
          var j :| OccursAt(s[1..], sub, j);
          assert s[1..][j..j + |sub|] == s[j + 1..j + 1 + |sub|];
          assert OccursAt(s, sub, j + 1);
        }
      }
      assert (exists i :: OccursAt(s, sub, i)) ==> b by {
        if exists i :: OccursAt(s, sub, i) {
          var i :| OccursAt(s, sub, i);
          assert i != 0;
          assert s[1..][i - 1..i - 1 + |sub|] == s[i..i + |sub|];
          assert OccursAt(s[1..], sub, i - 1);
        }
      }
      b
  }

  /** A device registry identifier: a tuple, modelled as its string members. */
  type Identifier = seq<string>

  /** `len(id) == 2 and expected_type in id[1]`. */
  predicate Matches(id: Identifier, expectedType: string)
    ensures Matches(id, expectedType) <==> |id| == 2 && exists i :: OccursAt(id[1], expectedType, i)
  {
    |id| == 2 && Contains(id[1], expectedType)
  }

  /** `s` is a dash-free `first`, a dash, the dash-free `second`, and then
      either nothing or the rest starting at the next dash. */
  predicate SecondPieceAt(s: string, first: string, second: string, rest: string)
  {
    && '-' !in first && '-' !in second
    && s == first + "-" + second + rest
    && (rest == "" || rest[0] == '-')
  }

  /** `identifier_string.split("-")[1]`: IndexError without a `-`. */
  function SecondDashPart(s: string): (r: Result<string>)
    ensures r.Err? <==> '-' !in s
    ensures r.Err? ==> r.error == IndexError
    ensures r.Ok? ==> '-' !in r.value
    ensures r.Ok? ==> |Split(s, '-')| >= 2 && r.value == Split(s, '-')[1]
    ensures r.Ok? ==> exists first, rest :: SecondPieceAt(s, first, r.value, rest)
  {
    var parts := Split(s, '-');
    if |parts| < 2 then
      assert '-' !in s by {
        SplitWithoutSeparatorIff(s, '-');
      }
      Err(IndexError)
    else
      assert '-' in s by {
        SplitWithoutSeparatorIff(s, '-');
      }
      var rest := if |parts| == 2 then "" else "-" + Join(parts[2..], '-');
      assert SecondPieceAt(s, parts[0], parts[1], rest) by {
        assert Join(parts[1..], '-') == parts[1] + rest by {
          if |parts| > 2 {
            assert parts[1..][1..] == parts[2..];
          }
        }
      }
      Ok(parts[1])
  }

  lemma SplitWithoutSeparatorIff(s: string, sep: char)
    ensures |Split(s, sep)| == 1 <==> sep !in s
  {
    if sep !in s {
      SplitWithoutSeparator(s, sep);
    }
  }

  /** `ids[k]` is the first identifier that matches. */
  predicate FirstMatch(ids: seq<Identifier>, expectedType: string, k: int)
  {
    && 0 <= k < |ids| && Matches(ids[k], expectedType)
    && forall j :: 0 <= j < k ==> !Matches(ids[j], expectedType)
  }

  /** The result for the matching identifier string `s`. */
  function Found(s: string): Result<Option<string>>
  {
    match SecondDashPart(s)
    case Ok(p) => Ok(Some(p))
    case Err(e) => Err(e)
  }

  /** What `get_enocean_id` returns for identifiers in iteration order: the
      second dash-separated part of the first matching identifier, None when
      none matches; it raises IndexError when that identifier has no dash. */
  function EnoceanIdOf(ids: seq<Identifier>, expectedType: string): (r: Result<Option<string>>)
    ensures r == Ok(None) <==> forall i :: 0 <= i < |ids| ==> !Matches(ids[i], expectedType)
    ensures r != Ok(None) ==> exists k :: FirstMatch(ids, expectedType, k) && r == Found(ids[k][1])
    decreases |ids|
  {
    if ids == [] then Ok(None)
    else if Matches(ids[0], expectedType) then
      assert FirstMatch(ids, expectedType, 0);
      Found(ids[0][1])
    else
      var r := EnoceanIdOf(ids[1..], expectedType);
      assert forall i :: 1 <= i < |ids| ==> ids[i] == ids[1..][i - 1];
      assert r != Ok(None) ==> exists k :: FirstMatch(ids, expectedType, k) && r == Found(ids[k][1]) by {
        if r != Ok(None) {
          var k :| FirstMatch(ids[1..], expectedType, k) && r == Found(ids[1..][k][1]);
          assert FirstMatch(ids, expectedType, k + 1);
        }
      }
      r
  }

  /** `get_enocean_id`: the search loop that returns on the first match. */
  method GetEnoceanId(identifiers: seq<Identifier>, expectedType: string) returns (r: Result<Option<string>>)
    ensures r == EnoceanIdOf(identifiers, expectedType)
  {
    var i := 0;
    while i < |identifiers|
      invariant 0 <= i <= |identifiers|
      invariant EnoceanIdOf(identifiers[i..], expectedType) == EnoceanIdOf(identifiers, expectedType)
    {
      var id := identifiers[i];
      if |id| == 2 && Contains(id[1], expectedType) {
        var parts := Split(id[1], '-');
        if |parts| < 2 {
          return Err(IndexError);
        }
        return Ok(Some(parts[1]));
      }
      assert identifiers[i..][1..] == identifiers[i + 1..];
      i := i + 1;
    }
    r := Ok(None);
  }

  /** `is_device_type`: whether `get_enocean_id` finds an id (and the
      IndexError it may raise). */
  method IsDeviceType(identifiers: seq<Identifier>, expectedType: string) returns (r: Result<bool>)
    ensures r.Ok? <==> EnoceanIdOf(identifiers, expectedType).Ok?
    ensures r.Ok? ==> (r.value <==> exists i :: 0 <= i < |identifiers| && Matches(identifiers[i], expectedType))
  {
    var found := GetEnoceanId(identifiers, expectedType);
    match found
    case Ok(id) => r := Ok(id.Some?);
    case Err(e) => r := Err(e);
  }

  /** The kind-and-id round trip: the identifier a light registers,
      (domain, "light-" + hex id), gives its hex id back. */
  lemma LightIdRoundTrip(domain: string, hexId: string)
    requires '-' !in hexId
    ensures EnoceanIdOf([[domain, Light.UniqueId(hexId)]], "light") == Ok(Some(hexId))
  {
    var u := Light.UniqueId(hexId);
    assert u[..5] == "light";
    assert u == "light" + ['-'] + hexId;
    SplitAfterFirstPiece("light", '-', hexId);
    SplitWithoutSeparator(hexId, '-');
  }

  /** The same for a button's identifier, (domain, "event-" + hex id). */
  lemma EventIdRoundTrip(domain: string, hexId: string)
    requires '-' !in hexId
    ensures EnoceanIdOf([[domain, ButtonEvent.UniqueId(hexId)]], "event") == Ok(Some(hexId))
  {
    var u := ButtonEvent.UniqueId(hexId);
    assert u[..5] == "event";
    assert u == "event" + ['-'] + hexId;
    SplitAfterFirstPiece("event", '-', hexId);
    SplitWithoutSeparator(hexId, '-');
  }

  // ---------------------------------------------------------------------
  // Switch channel normalisation
  // ---------------------------------------------------------------------

  /** The form field for the "all channels" box. */
  const ConfAllChannels := "all_channels"

  /** The channel stored from a submitted switch form: the "all channels" box
      wins over the channel number. The create form gives the box no default,
      so a form submitted without it raises KeyError; the options form always
      carries it. */
  function NormaliseChannel(allChannels: Option<bool>, channel: nat): (r: Result<nat>)
    ensures r.Err? <==> allChannels.None?
    ensures r.Err? ==> r.error == KeyError(ConfAllChannels)
    ensures allChannels == Some(true) ==> r == Ok(Switch.SwitchAllChannels)
    ensures allChannels == Some(false) ==> r == Ok(channel)
  {
    match allChannels
    case None => Err(KeyError(ConfAllChannels))
    case Some(all) => Ok(if all then Switch.SwitchAllChannels else channel)
  }

  /** The form defaults shown for a stored channel: (all channels, number). */
  function ChannelFormDefaults(stored: nat): (r: (bool, nat))
    ensures r.0 <==> stored == Switch.SwitchAllChannels
    ensures r.0 ==> r.1 == 0
    ensures !r.0 ==> r.1 == stored
  {
    if stored == Switch.SwitchAllChannels then (true, 0) else (false, stored)
  }

  /** Saving the options form unchanged stores the same channel again. */
  lemma ChannelRoundTrip(stored: nat)
    ensures NormaliseChannel(Some(ChannelFormDefaults(stored).0), ChannelFormDefaults(stored).1) == Ok(stored)
  {
  }

  /** A form whose channel number is not the sentinel shows up again as it
      was entered, except that the number is reset to 0 under "all channels". */
  lemma FormRoundTrip(allChannels: bool, channel: nat)
    requires channel != Switch.SwitchAllChannels
    ensures NormaliseChannel(Some(allChannels), channel).Ok?
    ensures ChannelFormDefaults(NormaliseChannel(Some(allChannels), channel).value) ==
              (allChannels, if allChannels then 0 else channel)
  {
  }

  // ---------------------------------------------------------------------
  // update_config_data
  // ---------------------------------------------------------------------

  /** Platform keys of the config entry's data. */
  const ConfCovers := "covers"
  const ConfSensors := "sensors"
  const ConfSwitches := "switches"
  const ConfLights := "lights"

  /** The order `update_config_data` visits the platforms in. */
  const Platforms := [ConfCovers, ConfSensors, ConfSwitches, ConfLights]

  /** Requested changes for one platform: device key to its new options, or to
      None for "remove the device". */
  type Changes<V> = map<string, Option<V>>

  /** The config entry's data: platform key to device key to device options. */
  type EntryData<V> = map<string, map<string, V>>

  datatype ConfigUpdate<V> = ConfigUpdate(data: EntryData<V>, reload: bool)

  /** `data.get(platform, {})`. */
  function Section<V>(data: EntryData<V>, platform: string): map<string, V>
  {
    if platform in data then data[platform] else map[]
  }

  /** One platform's devices after its changes. */
  function Merge<V>(current: map<string, V>, values: Changes<V>): (m: map<string, V>)
    ensures forall k :: k in values && values[k].None? ==> k !in m
    ensures forall k :: k in values && values[k].Some? ==> k in m && m[k] == values[k].value
    ensures forall k :: k !in values ==> (k in m <==> k in current)
    ensures forall k :: k !in values && k in current ==> m[k] == current[k]
  {
    map k | k in current.Keys + values.Keys && !(k in values && values[k].None?) ::
      if k in values then values[k].value else current[k]
  }

  /** Some change removes a device. */
  predicate Removes<V>(values: Changes<V>)
  {
    exists k :: k in values && values[k].None?
  }

  /** A removal of key `k` that `dict.pop` cannot perform. */
  predicate MissingRemoval<V>(current: map<string, V>, values: Changes<V>, k: string)
  {
    k in values && values[k].None? && k !in current
  }

  /** The requests of a call, one per platform (None and {} request nothing). */
  function Requests<V>(covers: Option<Changes<V>>, sensors: Option<Changes<V>>,
                       switches: Option<Changes<V>>, lights: Option<Changes<V>>): (r: map<string, Changes<V>>)
    ensures r.Keys == {ConfCovers, ConfSensors, ConfSwitches, ConfLights}
    ensures r[ConfCovers] == (if covers.Some? then covers.value else map[])
    ensures r[ConfSensors] == (if sensors.Some? then sensors.value else map[])
    ensures r[ConfSwitches] == (if switches.Some? then switches.value else map[])
    ensures r[ConfLights] == (if lights.Some? then lights.value else map[])
  {
    map[ConfCovers := OrEmpty(covers), ConfSensors := OrEmpty(sensors),
        ConfSwitches := OrEmpty(switches), ConfLights := OrEmpty(lights)]
  }

  function OrEmpty<V>(values: Option<Changes<V>>): Changes<V>
  {
    if values.Some? then values.value else map[]
  }

  /** The entry data after the requests: each requested platform merged (and
      present, even if it was absent), every other key as it was. */
  function Updated<V>(data: EntryData<V>, requests: map<string, Changes<V>>): (d: EntryData<V>)
    ensures d.Keys == data.Keys + requests.Keys
    ensures forall p :: p in requests ==> d[p] == Merge(Section(data, p), requests[p])
    ensures forall p :: p in data && p !in requests ==> d[p] == data[p]
  {
    map p | p in data.Keys + requests.Keys ::
      if p in requests then Merge(Section(data, p), requests[p]) else data[p]
  }

  /** Some requested removal names a device the platform does not have. */
  predicate Fails<V>(data: EntryData<V>, requests: map<string, Changes<V>>)
  {
    exists p, k :: p in requests && k in requests[p] && MissingRemoval(Section(data, p), requests[p], k)
  }

  predicate AnyRemoval<V>(requests: map<string, Changes<V>>)
  {
    exists p :: p in requests && Removes(requests[p])
  }

  /** The requests for the platforms visited so far. */
  function Visited<V>(requests: map<string, Changes<V>>, n: nat): map<string, Changes<V>>
    requires n <= |Platforms|
  {
    map p | p in requests && p in Platforms[..n] :: requests[p]
  }

  /** Visiting one more platform adds its requests. */
  lemma VisitStep<V>(requests: map<string, Changes<V>>, i: nat)
    requires i < |Platforms| && Platforms[i] in requests
    ensures Visited(requests, i + 1) == Visited(requests, i)[Platforms[i] := requests[Platforms[i]]]
  {
    assert Platforms[..i + 1] == Platforms[..i] + [Platforms[i]];
  }

  /** ... which merges that platform into the data ... */
  lemma UpdatedStep<V>(data: EntryData<V>, visited: map<string, Changes<V>>, p: string, values: Changes<V>)
    ensures Updated(data, visited[p := values]) == Updated(data, visited)[p := Merge(Section(data, p), values)]
  {
    var after := Updated(data, visited[p := values]);
    var before := Updated(data, visited)[p := Merge(Section(data, p), values)];
    assert after.Keys == before.Keys;
    forall q | q in after
      ensures after[q] == before[q]
    {
    }
  }

  /** ... fails if that platform's requests fail ... */
  lemma FailsStep<V>(data: EntryData<V>, visited: map<string, Changes<V>>, p: string, values: Changes<V>)
    requires p !in visited
    ensures Fails(data, visited[p := values]) <==>
              Fails(data, visited) || exists k :: k in values && MissingRemoval(Section(data, p), values, k)
  {
    var after := visited[p := values];
    if Fails(data, after) {
      var q, k :| q in after && k in after[q] && MissingRemoval(Section(data, q), after[q], k);
      if q != p {
        assert q in visited && k in visited[q] && MissingRemoval(Section(data, q), visited[q], k);
      }
    }
    if Fails(data, visited) {
      var q, k :| q in visited && k in visited[q] && MissingRemoval(Section(data, q), visited[q], k);
      assert q in after && k in after[q] && MissingRemoval(Section(data, q), after[q], k);
    }
    if exists k :: k in values && MissingRemoval(Section(data, p), values, k) {
      var k :| k in values && MissingRemoval(Section(data, p), values, k);
      assert p in after && k in after[p] && MissingRemoval(Section(data, p), after[p], k);
    }
  }

  /** ... and removes something if that platform's requests do. */
  lemma RemovalStep<V>(visited: map<string, Changes<V>>, p: string, values: Changes<V>)
    requires p !in visited
    ensures AnyRemoval(visited[p := values]) <==> AnyRemoval(visited) || Removes(values)
  {
    var after := visited[p := values];
    if AnyRemoval(after) {
      var q :| q in after && Removes(after[q]);
      if q != p {
        assert q in visited && Removes(visited[q]);
      }
    }
    if AnyRemoval(visited) {
      var q :| q in visited && Removes(visited[q]);
      assert q in after && Removes(after[q]);
    }
    if Removes(values) {
      assert p in after && Removes(after[p]);
    }
  }

  /** The loop invariant of `update_config_data` carried over one platform
      whose changes all apply. */
  lemma PlatformStep<V>(data: EntryData<V>, requests: map<string, Changes<V>>, i: nat)
    requires i < |Platforms| && Platforms[i] in requests
    requires !Fails(data, Visited(requests, i))
    requires forall k :: k in requests[Platforms[i]] ==> !MissingRemoval(Section(data, Platforms[i]), requests[Platforms[i]], k)
    ensures var p := Platforms[i];
            && Updated(data, Visited(requests, i + 1)) ==
                 Updated(data, Visited(requests, i))[p := Merge(Section(data, p), requests[p])]
            && !Fails(data, Visited(requests, i + 1))
            && (AnyRemoval(Visited(requests, i + 1)) <==> AnyRemoval(Visited(requests, i)) || Removes(requests[p]))
  {
    var p := Platforms[i];
    VisitStep(requests, i);
    assert p !in Visited(requests, i);
    UpdatedStep(data, Visited(requests, i), p, requests[p]);
    FailsStep(data, Visited(requests, i), p, requests[p]);
    RemovalStep(Visited(requests, i), p, requests[p]);
  }

  /** One platform's loop over its changes: `pop` for None, assignment
      otherwise; it stops at the first KeyError. */
  method ApplyChanges<V>(current: map<string, V>, values: Changes<V>) returns (r: Result<map<string, V>>)
    ensures r.Err? <==> exists k :: k in values && MissingRemoval(current, values, k)
    ensures r.Err? ==> r.error.KeyError? && MissingRemoval(current, values, r.error.key)
    ensures r.Ok? ==> r.value == Merge(current, values)
  {
    var section := current;
    var pending := values.Keys;
    while pending != {}
      invariant pending <= values.Keys
      invariant section == Merge(current, map k | k in values && k !in pending :: values[k])
      invariant forall k :: k in values && k !in pending ==> !MissingRemoval(current, values, k)
      decreases pending
    {
      var k :| k in pending;
      ghost var done := map j | j in values && j !in pending :: values[j];
      ghost var done' := map j | j in values && j !in pending - {k} :: values[j];
      assert done' == done[k := values[k]];
      if values[k].None? {
        if k !in section {
          assert MissingRemoval(current, values, k);
          return Err(KeyError(k));
        }
        section := map j | j in section && j != k :: section[j];
      } else {
        section := section[k := values[k].value];
      }
      pending := pending - {k};
      assert section == Merge(current, done');
    }
    assert (map k | k in values && k !in pending :: values[k]) == values;
    r := Ok(section);
  }

  /** `update_config_data`: the new entry data and whether a reload is
      scheduled (exactly when nothing was removed), or the KeyError that
      `pop` raises for a device that is not there, in which case the entry
      is not updated. */
  method UpdateConfigData<V>(data: EntryData<V>, covers: Option<Changes<V>>, sensors: Option<Changes<V>>,
                             switches: Option<Changes<V>>, lights: Option<Changes<V>>)
    returns (r: Result<ConfigUpdate<V>>)
    ensures var requests := Requests(covers, sensors, switches, lights);
            && (r.Err? <==> Fails(data, requests))
            && (r.Err? ==> r.error.KeyError? &&
                           exists p :: p in requests && MissingRemoval(Section(data, p), requests[p], r.error.key))
            && (r.Ok? ==> r.value == ConfigUpdate(Updated(data, requests), !AnyRemoval(requests)))
  {
    var requests := Requests(covers, sensors, switches, lights);
    var removal := false;
    var entry := data;
    var i := 0;
    while i < |Platforms|
      invariant 0 <= i <= |Platforms|
      invariant entry == Updated(data, Visited(requests, i))
      invariant !Fails(data, Visited(requests, i))
      invariant removal == AnyRemoval(Visited(requests, i))
    {
      var platform := Platforms[i];
      var values := requests[platform];
      var section := ApplyChanges(Section(data, platform), values);
      if section.Err? {
        assert platform in requests && section.error.key in requests[platform];
        return Err(section.error);
      }
      PlatformStep(data, requests, i);
      if Removes(values) {
        removal := true;
      }
      entry := entry[platform := section.value];
      i := i + 1;
    }
    assert Platforms[..|Platforms|] == Platforms;
    assert Visited(requests, |Platforms|) == requests;
    r := Ok(ConfigUpdate(entry, !removal));
  }
}
