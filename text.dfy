/** The few JavaScript string operations the core relies on: `startsWith`, `split` on a
    one-character separator, and `trim`. */
module Text {

  predicate StartsWith(s: string, prefix: string) {
    |prefix| <= |s| && s[..|prefix|] == prefix
  }

  predicate EndsWith(s: string, suffix: string) {
    |suffix| <= |s| && s[|s| - |suffix|..] == suffix
  }

  /** `s.split(sep)`: the maximal runs between separators, in order; never empty
      (`"".split(".")` is `[""]`). */
  function Split(s: string, sep: char): (parts: seq<string>)
    ensures |parts| >= 1
    decreases |s|
  {
    if s == [] then [""]
    else
      var rest := Split(s[1..], sep);
      if s[0] == sep then [""] + rest
      else [[s[0]] + rest[0]] + rest[1..]
  }

  /** `parts.join(sep)`, the inverse of Split. */
  function Join(parts: seq<string>, sep: char): string
    requires |parts| >= 1
  {
    if |parts| == 1 then parts[0] else parts[0] + [sep] + Join(parts[1..], sep)
  }

  function Last(parts: seq<string>): string
    requires |parts| >= 1
  {
    parts[|parts| - 1]
  }

  /** Splitting loses nothing: joining the parts gives the string back, and no part holds the separator. */
  lemma {:induction false} JoinSplit(s: string, sep: char)
    ensures Join(Split(s, sep), sep) == s
    ensures forall i :: 0 <= i < |Split(s, sep)| ==> sep !in Split(s, sep)[i]
    decreases |s|
  {
    if s != [] {
      var rest := Split(s[1..], sep);
      JoinSplit(s[1..], sep);
      if s[0] == sep {
        assert Split(s, sep) == [""] + rest;
        assert Join(Split(s, sep), sep) == [sep] + Join(rest, sep);
        assert s == [s[0]] + s[1..];
      } else {
        var parts := Split(s, sep);
        assert parts == [[s[0]] + rest[0]] + rest[1..];
        if |rest| == 1 {
          assert Join(parts, sep) == [s[0]] + rest[0];
        } else {
          assert parts[1..] == rest[1..];
          assert Join(rest, sep) == rest[0] + [sep] + Join(rest[1..], sep);
          assert Join(parts, sep) == [s[0]] + rest[0] + [sep] + Join(rest[1..], sep);
        }
        assert s == [s[0]] + s[1..];
        forall i | 0 <= i < |parts| ensures sep !in parts[i] {
          if i > 0 { assert parts[i] == rest[i]; }
        }
      }
    }
  }

  /** A field followed by the separator splits off as the first part. */
  lemma {:induction false} SplitAfterField(field: string, sep: char, rest: string)
    requires sep !in field
    ensures Split(field + [sep] + rest, sep) == [field] + Split(rest, sep)
    decreases |field|
  {
    var s := field + [sep] + rest;
    if field == [] {
      assert s[1..] == rest;
    } else {
      assert s[1..] == field[1..] + [sep] + rest;
      SplitAfterField(field[1..], sep, rest);
      assert [s[0]] + field[1..] == field;
    }
  }

  /** The first part is the text before the first separator, or the whole string when there is none. */
  lemma {:induction false} FirstField(s: string, sep: char)
    ensures sep !in Split(s, sep)[0]
    ensures Split(s, sep)[0] == s || StartsWith(s, Split(s, sep)[0] + [sep])
    decreases |s|
  {
    if s != [] && s[0] != sep {
      FirstField(s[1..], sep);
      var r := Split(s[1..], sep)[0];
      assert Split(s, sep)[0] == [s[0]] + r;
      assert s == [s[0]] + s[1..];
    }
  }

  /** A string without the separator is its own only part. */
  lemma {:induction false} SplitNoSep(s: string, sep: char)
    ensures sep !in s ==> Split(s, sep) == [s]
    decreases |s|
  {
    if s != [] && sep !in s {
      assert sep !in s[1..];
      SplitNoSep(s[1..], sep);
      assert s == [s[0]] + s[1..];
    }
  }

  lemma EndsWithCons(c: char, t: string, suffix: string)
    requires EndsWith(t, suffix)
    ensures EndsWith([c] + t, suffix)
  {
    var s := [c] + t;
    assert s[|s| - |suffix|..] == t[|t| - |suffix|..];
  }

  /** The last part holds no separator. */
  lemma LastHasNoSep(s: string, sep: char)
    ensures sep !in Last(Split(s, sep))
  {
    JoinSplit(s, sep);
    var parts := Split(s, sep);
    assert sep !in parts[|parts| - 1];
  }

  /** The last part is the whole string or follows a separator at its end. */
  lemma {:induction false} LastFieldEnds(s: string, sep: char)
    ensures Last(Split(s, sep)) == s || EndsWith(s, [sep] + Last(Split(s, sep)))
    decreases |s|
  {
    if s != [] {
      var parts, rest := Split(s, sep), Split(s[1..], sep);
      LastFieldEnds(s[1..], sep);
      assert s == [s[0]] + s[1..];
      if s[0] == sep {
        assert Last(parts) == Last(rest);
        if Last(rest) != s[1..] {
          EndsWithCons(s[0], s[1..], [sep] + Last(rest));
        }
      } else if |rest| == 1 {
        JoinSplit(s[1..], sep);
        assert Last(parts) == [s[0]] + rest[0];
      } else {
        assert Last(parts) == Last(rest);
        SplitNoSep(s[1..], sep);
        LastHasNoSep(s[1..], sep);
        assert sep in s[1..];
        EndsWithCons(s[0], s[1..], [sep] + Last(rest));
      }
    }
  }

  /** The last part is the text after the last separator, or the whole string when there is none. */
  lemma LastField(s: string, sep: char)
    ensures sep !in Last(Split(s, sep))
    ensures Last(Split(s, sep)) == s || EndsWith(s, [sep] + Last(Split(s, sep)))
    ensures sep !in s ==> Last(Split(s, sep)) == s
  {
    LastHasNoSep(s, sep);
    LastFieldEnds(s, sep);
    SplitNoSep(s, sep);
  }

  /** Text after a separator that holds no further separator is the last part. */
  lemma {:induction false} LastAfterSeparator(x: string, sep: char, y: string)
    requires sep !in y
    ensures |Split(x + [sep] + y, sep)| >= 2
    ensures Last(Split(x + [sep] + y, sep)) == y
    decreases |x|
  {
    var s := x + [sep] + y;
    if x == [] {
      assert s[1..] == y;
      LastField(y, sep);
    } else {
      assert s[1..] == x[1..] + [sep] + y;
      LastAfterSeparator(x[1..], sep, y);
    }
  }

  /** The characters `String.prototype.trim` removes: ECMAScript white space and line terminators. */
  predicate IsSpace(c: char) {
    || c == '\t' || c == '\n' || c == '\U{000B}' || c == '\U{000C}' || c == '\r' || c == ' '
    || c == '\U{00A0}' || c == '\U{1680}' || ('\U{2000}' <= c <= '\U{200A}')
    || c == '\U{2028}' || c == '\U{2029}' || c == '\U{202F}' || c == '\U{205F}'
    || c == '\U{3000}' || c == '\U{FEFF}'
  }

  predicate IsBlank(s: string) {
    forall i :: 0 <= i < |s| ==> IsSpace(s[i])
  }

  function TrimStart(s: string): string
    decreases |s|
  {
    if s != [] && IsSpace(s[0]) then TrimStart(s[1..]) else s
  }

  function TrimEnd(s: string): string
    decreases |s|
  {
    if s != [] && IsSpace(s[|s| - 1]) then TrimEnd(s[..|s| - 1]) else s
  }

  /** `s.trim()`. */
  function Trim(s: string): string {
    TrimEnd(TrimStart(s))
  }

  lemma {:induction false} TrimStartFacts(s: string)
    ensures TrimStart(s) == "" <==> IsBlank(s)
    ensures TrimStart(s) != "" ==> !IsSpace(TrimStart(s)[0])
    decreases |s|
  {
    if s != [] && IsSpace(s[0]) {
      TrimStartFacts(s[1..]);
      assert IsBlank(s) <==> IsBlank(s[1..]) by {
        if IsBlank(s[1..]) {
          forall i | 0 <= i < |s| ensures IsSpace(s[i]) {
            if i > 0 { assert s[i] == s[1..][i - 1]; }
          }
        }
      }
    } else if s != [] {
      assert !IsSpace(s[0]);
    }
  }

  lemma {:induction false} TrimEndKeepsHead(s: string)
    requires s != [] && !IsSpace(s[0])
    ensures TrimEnd(s) != ""
    decreases |s|
  {
    if IsSpace(s[|s| - 1]) {
      TrimEndKeepsHead(s[..|s| - 1]);
    }
  }

  /** `!s.trim()` holds exactly of the strings made only of white space (the empty one included). */
  lemma TrimEmptyIffBlank(s: string)
    ensures Trim(s) == "" <==> IsBlank(s)
  {
    TrimStartFacts(s);
    if !IsBlank(s) {
      TrimEndKeepsHead(TrimStart(s));
    }
  }
}
