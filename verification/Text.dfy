/** The string operations the form code relies on: trim, split, join and lower-casing. */
module Text {
  /** White space as String.prototype.trim removes it. */
  predicate IsSpace(c: char) {
    c in {' ', '\t', '\n', '\U{000B}', '\U{000C}', '\r', '\U{00A0}', '\U{1680}', '\U{2028}', '\U{2029}', '\U{202F}',
          '\U{205F}', '\U{3000}', '\U{FEFF}'} || '\U{2000}' <= c <= '\U{200A}'
  }

  function TrimStart(s: string): string {
    if s != "" && IsSpace(s[0]) then TrimStart(s[1..]) else s
  }

  function TrimEnd(s: string): string {
    if s != "" && IsSpace(s[|s| - 1]) then TrimEnd(s[..|s| - 1]) else s
  }

  function Trim(s: string): string {
    TrimEnd(TrimStart(s))
  }

  function LowerChar(c: char): char {
    if 'A' <= c <= 'Z' then (c as int + 32) as char else c
  }

  function ToLower(s: string): (r: string)
    ensures |r| == |s|
  {
    seq(|s|, i requires 0 <= i < |s| => LowerChar(s[i]))
  }

  function Split(s: string, separator: char): (parts: seq<string>)
    ensures parts != []
  {
    if s == "" then [""]
    else
      var rest := Split(s[1..], separator);
      if s[0] == separator then [""] + rest
      else [[s[0]] + rest[0]] + rest[1..]
  }

  function Join(parts: seq<string>, separator: string): string {
    if parts == [] then ""
    else if |parts| == 1 then parts[0]
    else parts[0] + separator + Join(parts[1..], separator)
  }

  // ---- Trim -------------------------------------------------------------------------

  /** Nothing for trim to remove. */
  predicate IsTrimmed(s: string) {
    s != "" ==> !IsSpace(s[0]) && !IsSpace(s[|s| - 1])
  }

  lemma {:induction false} TrimStartCuts(s: string) returns (k: nat)
    ensures k <= |s| && TrimStart(s) == s[k..]
    ensures TrimStart(s) != "" ==> !IsSpace(TrimStart(s)[0])
  {
    if s != "" && IsSpace(s[0]) {
      k := TrimStartCuts(s[1..]);
      k := k + 1;
    } else {
      k := 0;
    }
  }

  lemma {:induction false} TrimEndCuts(s: string) returns (k: nat)
    ensures k <= |s| && TrimEnd(s) == s[..k]
    ensures TrimEnd(s) != "" ==> !IsSpace(TrimEnd(s)[|TrimEnd(s)| - 1])
  {
    if s != "" && IsSpace(s[|s| - 1]) {
      k := TrimEndCuts(s[..|s| - 1]);
    } else {
      k := |s|;
    }
  }

  /** The result of trim has nothing left to trim, and contains no new characters. */
  lemma TrimTrims(s: string)
    ensures IsTrimmed(Trim(s))
    ensures forall c :: c in Trim(s) ==> c in s
  {
    var i := TrimStartCuts(s);
    var j := TrimEndCuts(TrimStart(s));
  }

  /** Trim takes white space off both ends, and nothing else. */
  lemma TrimTakesSpace(s: string) returns (i: nat, j: nat)
    ensures i <= j <= |s| && Trim(s) == s[i..j]
    ensures forall k :: 0 <= k < |s| && !(i <= k < j) ==> IsSpace(s[k])
  {
    i := TrimStartTakesSpace(s);
    var length := TrimEndTakesSpace(TrimStart(s));
    j := i + length;
    assert s[i..][..length] == s[i..j];
    forall k | j <= k < |s| ensures IsSpace(s[k]) {
      assert s[k] == TrimStart(s)[k - i];
    }
  }

  lemma {:induction false} TrimStartTakesSpace(s: string) returns (i: nat)
    ensures i <= |s| && TrimStart(s) == s[i..] && forall k :: 0 <= k < i ==> IsSpace(s[k])
  {
    if s != "" && IsSpace(s[0]) {
      i := TrimStartTakesSpace(s[1..]);
      assert forall k :: 0 < k < i + 1 ==> s[k] == s[1..][k - 1];
      i := i + 1;
    } else {
      i := 0;
    }
  }

  lemma {:induction false} TrimEndTakesSpace(s: string) returns (j: nat)
    ensures j <= |s| && TrimEnd(s) == s[..j] && forall k :: j <= k < |s| ==> IsSpace(s[k])
  {
    if s != "" && IsSpace(s[|s| - 1]) {
      j := TrimEndTakesSpace(s[..|s| - 1]);
    } else {
      j := |s|;
    }
  }

  lemma TrimOfTrimmed(s: string)
    requires IsTrimmed(s)
    ensures Trim(s) == s
  {
  }

  lemma TrimIsIdempotent(s: string)
    ensures Trim(Trim(s)) == Trim(s)
  {
    TrimTrims(s);
    TrimOfTrimmed(Trim(s));
  }

  lemma TrimSkipsSpace(s: string)
    ensures Trim(" " + s) == Trim(s)
  {
    assert (" " + s)[1..] == s;
  }

  // ---- Split and join -----------------------------------------------------------------

  lemma {:induction false} SplitOfOne(s: string, separator: char)
    requires separator !in s
    ensures Split(s, separator) == [s]
  {
    if s != "" {
      SplitOfOne(s[1..], separator);
      assert [s[0]] + s[1..] == s;
    }
  }

  /** Splitting starts afresh after each separator. */
  lemma {:induction false} SplitAtSeparator(a: string, b: string, separator: char)
    ensures Split(a + [separator] + b, separator) == Split(a, separator) + Split(b, separator)
  {
    var whole := a + [separator] + b;
    if a == "" {
      assert whole[1..] == b;
    } else {
      assert whole[1..] == a[1..] + [separator] + b;
      SplitAtSeparator(a[1..], b, separator);
    }
  }

  /** A part is made of characters of the text, none of them the separator. */
  lemma {:induction false} SplitPart(s: string, separator: char, i: nat, c: char)
    requires i < |Split(s, separator)| && c in Split(s, separator)[i]
    ensures c in s && c != separator
  {
    assert s != "";
    if s[0] == separator {
      SplitPart(s[1..], separator, i - 1, c);
    } else if i > 0 || c != s[0] {
      SplitPart(s[1..], separator, i, c);
    }
  }

  /** Joining the parts of a split with the separator gives the text back. */
  lemma {:induction false} JoinOfSplit(s: string, separator: char)
    ensures Join(Split(s, separator), [separator]) == s
  {
    if s != "" {
      var rest := Split(s[1..], separator);
      JoinOfSplit(s[1..], separator);
      if s[0] != separator {
        assert Split(s, separator)[1..] == rest[1..];
      } else {
        assert Split(s, separator)[1..] == rest;
      }
    }
  }

  /** Splitting joined parts gives them back when none contains the separator. */
  lemma {:induction false} SplitOfJoined(parts: seq<string>, separator: char)
    requires parts != [] && forall i :: 0 <= i < |parts| ==> separator !in parts[i]
    ensures Split(Join(parts, [separator]), separator) == parts
  {
    SplitOfOne(parts[0], separator);
    if |parts| > 1 {
      SplitOfJoined(parts[1..], separator);
      SplitAtSeparator(parts[0], Join(parts[1..], [separator]), separator);
    }
  }

  lemma {:induction false} SplitsInTwo(s: string, separator: char)
    ensures |Split(s, separator)| == 1 <==> separator !in s
  {
    if s != "" {
      SplitsInTwo(s[1..], separator);
      assert s == [s[0]] + s[1..];
    }
  }

  /** Joined parts split into at least as many, and into as many only when none contains the separator. */
  lemma {:induction false} JoinedPieces(parts: seq<string>, separator: char)
    requires parts != []
    ensures |Split(Join(parts, [separator]), separator)| >= |parts|
    ensures |Split(Join(parts, [separator]), separator)| == |parts| <==>
            forall i :: 0 <= i < |parts| ==> separator !in parts[i]
  {
    SplitsInTwo(parts[0], separator);
    if |parts| > 1 {
      var rest := parts[1..];
      JoinedPieces(rest, separator);
      SplitAtSeparator(parts[0], Join(rest, [separator]), separator);
      assert Join(parts, [separator]) == parts[0] + [separator] + Join(rest, [separator]);
      assert forall i :: 0 < i < |parts| ==> parts[i] == rest[i - 1];
    }
  }

  /** A separator at the end of one part and one at the start of the next look the same once joined. */
  lemma {:induction false} JoinMovesSeparator(before: seq<string>, x: string, y: string, z: string, after: seq<string>,
                                              separator: string)
    ensures Join(before + [x + separator + y, z] + after, separator) ==
            Join(before + [x, y + separator + z] + after, separator)
  {
    var left, right := before + [x + separator + y, z] + after, before + [x, y + separator + z] + after;
    if before == [] {
      assert left[1..] == [z] + after && right[1..] == [y + separator + z] + after;
      assert ([z] + after)[1..] == after && ([y + separator + z] + after)[1..] == after;
      JoinAfter(y, separator, z, after);
      assert x + separator + y + separator + Join([z] + after, separator)
          == x + separator + (y + separator + Join([z] + after, separator));
    } else {
      JoinMovesSeparator(before[1..], x, y, z, after, separator);
      assert left[1..] == before[1..] + [x + separator + y, z] + after;
      assert right[1..] == before[1..] + [x, y + separator + z] + after;
    }
  }

  lemma JoinAfter(y: string, separator: string, z: string, after: seq<string>)
    ensures Join([y + separator + z] + after, separator) == y + separator + Join([z] + after, separator)
  {
    assert ([z] + after)[1..] == after && ([y + separator + z] + after)[1..] == after;
    if after == [] {
      assert [z] + after == [z] && [y + separator + z] + after == [y + separator + z];
    } else {
      assert y + separator + z + separator + Join(after, separator)
          == y + separator + (z + separator + Join(after, separator));
    }
  }
}
