/**
  The character rewriting of the `.strings` serialiser: values are escaped
  (a newline becomes the two characters backslash-n, then every double quote
  gets a preceding backslash), and translator comments have every literal
  backslash-n turned back into a line break.
*/
module Escaping {
  import opened Basics

  /** `s.replacingOccurrences(of: [c], with: rep)` for a single character `c`. */
  function ReplaceChar(s: string, c: char, rep: string): (r: string)
    decreases |s|
  {
    if s == [] then []
    else (if s[0] == c then rep else [s[0]]) + ReplaceChar(s[1..], c, rep)
  }

  lemma {:induction false} ReplaceCharAppend(a: string, b: string, c: char, rep: string)
    ensures ReplaceChar(a + b, c, rep) == ReplaceChar(a, c, rep) + ReplaceChar(b, c, rep)
    decreases |a|
  {
    if a == [] {
      assert a + b == b;
    } else {
      assert (a + b)[0] == a[0] && (a + b)[1..] == a[1..] + b;
      ReplaceCharAppend(a[1..], b, c, rep);
    }
  }

  /** The first pass of the value escaping: a line break becomes backslash-n. */
  function EscapeNewlines(s: string): string {
    ReplaceChar(s, '\n', "\\n")
  }

  /**
    The value escaping of the `.strings` serialiser: newlines first, then
    double quotes. Backslashes themselves are left alone.
  */
  function Escape(s: string): string {
    ReplaceChar(EscapeNewlines(s), '"', "\\\"")
  }

  /** What one character of the input turns into. */
  function EscapedChar(x: char): string {
    if x == '\n' then "\\n" else if x == '"' then "\\\"" else [x]
  }

  lemma EscapeCons(s: string)
    requires s != []
    ensures Escape(s) == EscapedChar(s[0]) + Escape(s[1..])
  {
    var head := if s[0] == '\n' then "\\n" else [s[0]];
    assert EscapeNewlines(s) == head + EscapeNewlines(s[1..]);
    ReplaceCharAppend(head, EscapeNewlines(s[1..]), '"', "\\\"");
    if s[0] == '\n' {
      assert ReplaceChar(head, '"', "\\\"") == "\\n" by {
        assert head[1..] == "n";
        assert head[1..][1..] == [];
      }
    } else {
      assert head[1..] == [];
    }
  }

  /** An escaped value never contains a raw line break and never starts with a double quote. */
  lemma {:induction false} EscapeHasNoNewline(s: string)
    ensures '\n' !in Escape(s)
    ensures |Escape(s)| > 0 ==> Escape(s)[0] != '"'
    decreases |s|
  {
    if s != [] {
      EscapeCons(s);
      EscapeHasNoNewline(s[1..]);
    }
  }

  /** Every double quote in an escaped value is preceded by a backslash. */
  lemma {:induction false} EscapeQuotesArePreceded(s: string)
    ensures forall i :: 0 <= i < |Escape(s)| && Escape(s)[i] == '"' ==> i > 0 && Escape(s)[i - 1] == '\\'
    decreases |s|
  {
    if s != [] {
      EscapeCons(s);
      EscapeQuotesArePreceded(s[1..]);
      EscapeHasNoNewline(s[1..]);
      var h := EscapedChar(s[0]);
      var t := Escape(s[1..]);
      forall i | 0 <= i < |h + t| && (h + t)[i] == '"' ensures i > 0 && (h + t)[i - 1] == '\\' {
        if i >= |h| {
          assert (h + t)[i] == t[i - |h|];
          if i - |h| > 0 {
            assert (h + t)[i - 1] == t[i - |h| - 1];
          }
        }
      }
    }
  }

  /**
    How a `.strings` reader reads the body of a quoted string: up to the first
    double quote that is not escaped, where backslash-n stands for a line break
    and a backslash followed by any other character for that character. Gives
    the text read and what follows the closing quote.
  */
  function ReadQuoted(s: string): Option<(string, string)>
    decreases |s|
  {
    if |s| == 0 then None
    else if s[0] == '"' then Some(("", s[1..]))
    else if s[0] == '\\' && |s| >= 2 then
      var c := if s[1] == 'n' then '\n' else s[1];
      match ReadQuoted(s[2..])
      case None => None
      case Some((v, rest)) => Some(([c] + v, rest))
    else
      match ReadQuoted(s[1..])
      case None => None
      case Some((v, rest)) => Some(([s[0]] + v, rest))
  }

  /**
    A reader stops at the closing quote after an escaped value and gives back the
    value, as long as the value has no backslash of its own (backslashes are not
    escaped, so a literal backslash-n in a value reads back as a line break).
  */
  lemma {:induction false} ReadQuotedEscape(s: string, rest: string)
    requires '\\' !in s
    ensures ReadQuoted(Escape(s) + "\"" + rest) == Some((s, rest))
    decreases |s|
  {
    if s == [] {
      assert Escape(s) + "\"" + rest == "\"" + rest;
    } else {
      EscapeCons(s);
      ReadQuotedEscape(s[1..], rest);
      var tail := Escape(s[1..]) + "\"" + rest;
      var e := EscapedChar(s[0]) + tail;
      assert Escape(s) + "\"" + rest == e;
      if s[0] == '\n' || s[0] == '"' {
        assert e[2..] == tail;
      } else {
        assert e[1..] == tail;
      }
      assert s == [s[0]] + s[1..];
    }
  }

  /** Text without quotes or backslashes, a raw line break included, reads back as it is. */
  lemma {:induction false} ReadQuotedPlain(s: string, rest: string)
    requires '"' !in s && '\\' !in s
    ensures ReadQuoted(s + "\"" + rest) == Some((s, rest))
    decreases |s|
  {
    if s == [] {
      assert s + "\"" + rest == "\"" + rest;
    } else {
      ReadQuotedPlain(s[1..], rest);
      assert (s + "\"" + rest)[1..] == s[1..] + "\"" + rest;
      assert s == [s[0]] + s[1..];
    }
  }

  /** A value holding a line break and one holding backslash-n escape to the same text. */
  lemma EscapeConflatesLiteralBackslashN()
    ensures Escape("\n") == Escape("\\n")
  {
    EscapeCons("\n");
    EscapeCons("\\n");
    EscapeCons("n");
    assert "\\n"[1..] == "n";
    assert "n"[1..] == [];
  }

  /** `note.replacingOccurrences(of: "\\n", with: "\n")`: left to right, non-overlapping. */
  function ExpandLineBreaks(s: string): string
    decreases |s|
  {
    if |s| == 0 then ""
    else if |s| >= 2 && s[0] == '\\' && s[1] == 'n' then "\n" + ExpandLineBreaks(s[2..])
    else [s[0]] + ExpandLineBreaks(s[1..])
  }

  predicate HasLiteralLineBreak(s: string) {
    exists i :: 0 <= i < |s| - 1 && s[i] == '\\' && s[i + 1] == 'n'
  }

  lemma ExpandLineBreaksHead(s: string)
    requires s != []
    ensures |ExpandLineBreaks(s)| > 0
    ensures ExpandLineBreaks(s)[0] == (if |s| >= 2 && s[0] == '\\' && s[1] == 'n' then '\n' else s[0])
  {
  }

  /** After expansion no literal backslash-n is left in a comment. */
  lemma {:induction false} ExpandLeavesNoLiteralLineBreak(s: string)
    ensures !HasLiteralLineBreak(ExpandLineBreaks(s))
    decreases |s|
  {
    if |s| >= 2 && s[0] == '\\' && s[1] == 'n' {
      ExpandLeavesNoLiteralLineBreak(s[2..]);
      var t := ExpandLineBreaks(s[2..]);
      var r := "\n" + t;
      forall i | 0 <= i < |r| - 1 ensures !(r[i] == '\\' && r[i + 1] == 'n') {
        if i > 0 { assert r[i] == t[i - 1] && r[i + 1] == t[i]; }
      }
    } else if s != [] {
      ExpandLeavesNoLiteralLineBreak(s[1..]);
      var t := ExpandLineBreaks(s[1..]);
      var r := [s[0]] + t;
      forall i | 0 <= i < |r| - 1 ensures !(r[i] == '\\' && r[i + 1] == 'n') {
        if i > 0 {
          assert r[i] == t[i - 1] && r[i + 1] == t[i];
        } else if s[0] == '\\' {
          ExpandLineBreaksHead(s[1..]);
        }
      }
    }
  }

  /**
    Escaping the line breaks of an expanded comment gives the comment back,
    provided it had no line break of its own: the comment expansion undoes the
    first pass of the value escaping.
  */
  lemma {:induction false} EscapeNewlinesUndoesExpand(s: string)
    requires '\n' !in s
    ensures EscapeNewlines(ExpandLineBreaks(s)) == s
    decreases |s|
  {
    if |s| >= 2 && s[0] == '\\' && s[1] == 'n' {
      EscapeNewlinesUndoesExpand(s[2..]);
      ReplaceCharAppend("\n", ExpandLineBreaks(s[2..]), '\n', "\\n");
      assert s == "\\n" + s[2..];
    } else if s != [] {
      EscapeNewlinesUndoesExpand(s[1..]);
      ReplaceCharAppend([s[0]], ExpandLineBreaks(s[1..]), '\n', "\\n");
      assert s == [s[0]] + s[1..];
    }
  }
}
