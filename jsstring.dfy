/**
 * The few JavaScript string operations the modelled code relies on:
 * `startsWith`, `split`, `includes`, `trim` and UTF-16 `length`.
 */
module JsString {

  predicate StartsWith(s: string, prefix: string)
  {
    |prefix| <= |s| && s[..|prefix|] == prefix
  }

  /** `s.split(sep)` for a one-character separator: always at least one field. */
  function Split(s: string, sep: char): (fields: seq<string>)
    ensures |fields| >= 1
    decreases |s|
  {
    if |s| == 0 then [""]
    else if s[0] == sep then [""] + Split(s[1..], sep)
    else
      var rest := Split(s[1..], sep);
      [[s[0]] + rest[0]] + rest[1..]
  }

  /** `fields.join(sep)`, the inverse of `Split`. */
  function Join(fields: seq<string>, sep: char): string
    requires |fields| >= 1
    decreases |fields|
  {
    if |fields| == 1 then fields[0] else fields[0] + [sep] + Join(fields[1..], sep)
  }

  /** Splitting loses nothing: joining the fields gives back the string. */
  lemma {:induction false} SplitJoin(s: string, sep: char)
    ensures Join(Split(s, sep), sep) == s
    decreases |s|
  {
    if |s| > 0 {
      var r := Split(s[1..], sep);
      SplitJoin(s[1..], sep);
      var f := Split(s, sep);
      assert s == [s[0]] + s[1..];
      if s[0] == sep {
        assert f == [""] + r;
        assert f[1..] == r;
        assert Join(f, sep) == "" + [sep] + Join(r, sep);
      } else {
        assert f == [[s[0]] + r[0]] + r[1..];
        if |r| == 1 {
          assert Join(f, sep) == [s[0]] + r[0];
        } else {
          assert f[1..] == r[1..];
          assert Join(r, sep) == r[0] + [sep] + Join(r[1..], sep);
          assert Join(f, sep) == ([s[0]] + r[0]) + [sep] + Join(r[1..], sep);
        }
      }
    }
  }

  /** No field of a split holds the separator. */
  lemma {:induction false} SplitFieldsFree(s: string, sep: char)
    ensures forall k | 0 <= k < |Split(s, sep)| :: sep !in Split(s, sep)[k]
    decreases |s|
  {
    if |s| > 0 {
      SplitFieldsFree(s[1..], sep);
      var r := Split(s[1..], sep);
      var f := Split(s, sep);
      forall k | 0 <= k < |f| ensures sep !in f[k] {
        if s[0] == sep {
          if k > 0 { assert f[k] == r[k - 1]; }
        } else if k > 0 {
          assert f[k] == r[k];
        } else {
          assert f[0] == [s[0]] + r[0];
        }
      }
    }
  }

  lemma {:induction false} JoinSnoc(fields: seq<string>, last: string, sep: char)
    requires |fields| >= 1
    ensures Join(fields + [last], sep) == Join(fields, sep) + [sep] + last
    decreases |fields|
  {
    if |fields| == 1 {
      assert (fields + [last])[1..] == [last];
    } else {
      assert (fields + [last])[1..] == fields[1..] + [last];
      JoinSnoc(fields[1..], last, sep);
    }
  }

  /** The first field of a split is the longest separator-free prefix. */
  lemma SplitHead(s: string, sep: char)
    ensures var h := Split(s, sep)[0];
      |h| <= |s| && s[..|h|] == h && sep !in h && (|h| == |s| || s[|h|] == sep)
  {
    SplitJoin(s, sep);
    SplitFieldsFree(s, sep);
    var fs := Split(s, sep);
    if |fs| > 1 {
      assert Join(fs, sep) == fs[0] + [sep] + Join(fs[1..], sep);
    }
  }

  /** When the string has a separator after a separator-free head, the remaining fields split the rest. */
  lemma {:induction false} SplitAfterHead(head: string, rest: string, sep: char)
    requires sep !in head
    ensures Split(head + [sep] + rest, sep) == [head] + Split(rest, sep)
    decreases |head|
  {
    var s := head + [sep] + rest;
    if |head| == 0 {
      assert s[1..] == rest;
    } else {
      assert s[1..] == head[1..] + [sep] + rest;
      SplitAfterHead(head[1..], rest, sep);
      assert [head[0]] + head[1..] == head;
    }
  }

  /** The last field of a split is the longest separator-free suffix. */
  lemma SplitLast(s: string, sep: char)
    ensures var fs := Split(s, sep); var l := fs[|fs| - 1];
      |l| <= |s| && s[|s| - |l|..] == l && sep !in l && (|l| == |s| || s[|s| - |l| - 1] == sep)
  {
    var fs := Split(s, sep);
    var l := fs[|fs| - 1];
    SplitJoin(s, sep);
    SplitFieldsFree(s, sep);
    assert sep !in l;
    if |fs| == 1 {
      assert s == l;
    } else {
      var init := fs[..|fs| - 1];
      assert fs == init + [l];
      JoinSnoc(init, l, sep);
      var a := Join(init, sep);
      assert s == a + [sep] + l;
      assert s[|s| - |l|..] == l;
      assert s[|s| - |l| - 1] == sep;
    }
  }

  /** `s.includes(sub)`. */
  function Contains(s: string, sub: string): bool
    decreases |s|
  {
    if |s| < |sub| then false
    else s[..|sub|] == sub || (|s| > 0 && Contains(s[1..], sub))
  }

  /** A string that starts with `sub` contains it. */
  lemma StartsWithConcat(head: string, rest: string)
    ensures StartsWith(head + rest, head)
  {
    assert (head + rest)[..|head|] == head;
  }

  lemma ContainsPrefix(head: string, rest: string)
    ensures Contains(head + rest, head)
  {
    assert (head + rest)[..|head|] == head;
  }

  /** A string lacking the first character of `sub` cannot contain `sub`. */
  lemma {:induction false} NotContainsWithoutFirst(s: string, sub: string)
    requires |sub| > 0 && sub[0] !in s
    ensures !Contains(s, sub)
    decreases |s|
  {
    if |s| >= |sub| {
      assert s[..|sub|][0] == s[0];
      if |s| > 0 { NotContainsWithoutFirst(s[1..], sub); }
    }
  }

  /** ECMAScript WhiteSpace and LineTerminator code points, the ones `trim` strips. */
  predicate IsWhitespace(c: char)
  {
    c == '\t' || c == '\n' || c == '\U{000B}' || c == '\U{000C}' || c == '\r' || c == ' '
    || c == '\U{00A0}' || c == '\U{1680}' || ('\U{2000}' <= c <= '\U{200A}')
    || c == '\U{2028}' || c == '\U{2029}' || c == '\U{202F}' || c == '\U{205F}'
    || c == '\U{3000}' || c == '\U{FEFF}'
  }

  function TrimStart(s: string): string
  {
    if |s| > 0 && IsWhitespace(s[0]) then TrimStart(s[1..]) else s
  }

  function TrimEnd(s: string): string
  {
    if |s| > 0 && IsWhitespace(s[|s| - 1]) then TrimEnd(s[..|s| - 1]) else s
  }

  /** `s.trim()`. */
  function Trim(s: string): string
  {
    TrimEnd(TrimStart(s))
  }

  lemma {:induction false} TrimStartEmpty(s: string)
    ensures TrimStart(s) == "" <==> forall i | 0 <= i < |s| :: IsWhitespace(s[i])
    decreases |s|
  {
    if |s| > 0 && IsWhitespace(s[0]) {
      TrimStartEmpty(s[1..]);
      assert forall i | 1 <= i < |s| :: s[i] == s[1..][i - 1];
    }
  }

  lemma {:induction false} TrimStartHead(s: string)
    ensures TrimStart(s) == "" || !IsWhitespace(TrimStart(s)[0])
    decreases |s|
  {
    if |s| > 0 && IsWhitespace(s[0]) { TrimStartHead(s[1..]); }
  }

  /** Trimming the end never removes a leading non-whitespace character. */
  lemma {:induction false} TrimEndKeepsHead(s: string)
    requires |s| > 0 && !IsWhitespace(s[0])
    ensures |TrimEnd(s)| > 0
    decreases |s|
  {
    if IsWhitespace(s[|s| - 1]) {
      TrimEndKeepsHead(s[..|s| - 1]);
    }
  }

  /** `s.trim()` is empty exactly when every character of `s` is whitespace. */
  lemma TrimIsEmpty(s: string)
    ensures Trim(s) == "" <==> forall i | 0 <= i < |s| :: IsWhitespace(s[i])
  {
    TrimStartEmpty(s);
    TrimStartHead(s);
    if TrimStart(s) != "" { TrimEndKeepsHead(TrimStart(s)); }
  }

  /** `s.length` in JavaScript: UTF-16 code units, two for a code point above U+FFFF. */
  function Utf16Length(s: string): (n: nat)
    ensures |s| <= n <= 2 * |s|
  {
    if s == [] then 0 else (if s[0] as int > 0xFFFF then 2 else 1) + Utf16Length(s[1..])
  }
}
