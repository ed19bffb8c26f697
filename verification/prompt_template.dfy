/** The pure parts of `createChatPromptTemplate` (prompts/gameRecommendationPrompt.ts):
    the format instructions have their braces doubled so the template engine reads
    them as literal braces, and the tools are listed one per numbered line. */
module PromptTemplate {
  import opened Strings

  predicate IsBrace(c: char)
  {
    c == '{' || c == '}'
  }

  /** `s.replace(/c/g, c + c)`: every occurrence of `c` doubled. */
  function DoubleChar(s: string, c: char): (r: string)
    ensures |r| >= |s|
  {
    if |s| == 0 then ""
    else (if s[0] == c then [c, c] else [s[0]]) + DoubleChar(s[1..], c)
  }

  lemma {:induction false} DoubleCharAppend(a: string, b: string, c: char)
    ensures DoubleChar(a + b, c) == DoubleChar(a, c) + DoubleChar(b, c)
    decreases |a|
  {
    if |a| == 0 {
      assert a + b == b;
    } else {
      assert (a + b)[0] == a[0];
      assert (a + b)[1..] == a[1..] + b;
      DoubleCharAppend(a[1..], b, c);
    }
  }

  /** What one input character becomes. */
  function EscapeChar(c: char): (r: string)
    ensures IsBrace(c) ==> r == [c, c]
    ensures !IsBrace(c) ==> r == [c]
  {
    if IsBrace(c) then [c, c] else [c]
  }

  /** The reference escaping: character by character. */
  function Escaped(s: string): string
  {
    if |s| == 0 then "" else EscapeChar(s[0]) + Escaped(s[1..])
  }

  /** The two passes escape each character on its own: `{` to `{{`, `}` to `}}`, any
      other character unchanged. */
  lemma {:induction false} TwoPassesCharwise(s: string)
    ensures DoubleChar(DoubleChar(s, '{'), '}') == Escaped(s)
    decreases |s|
  {
    if |s| > 0 {
      var first := if s[0] == '{' then "{{" else [s[0]];
      assert DoubleChar(s, '{') == first + DoubleChar(s[1..], '{');
      DoubleCharAppend(first, DoubleChar(s[1..], '{'), '}');
      assert DoubleChar(first, '}') == EscapeChar(s[0]) by {
        if s[0] == '{' {
          assert DoubleChar("{{", '}') == "{" + DoubleChar("{", '}');
          assert DoubleChar("{", '}') == "{" + DoubleChar("", '}');
        } else {
          assert DoubleChar([s[0]], '}') == (if s[0] == '}' then "}}" else [s[0]]) + DoubleChar([], '}');
        }
      }
      TwoPassesCharwise(s[1..]);
    }
  }

  /** The number of braces in `s`. */
  function BraceCount(s: string): nat
  {
    if |s| == 0 then 0 else (if IsBrace(s[0]) then 1 else 0) + BraceCount(s[1..])
  }

  /** Each brace adds one character. */
  lemma {:induction false} EscapedLength(s: string)
    ensures |Escaped(s)| == |s| + BraceCount(s)
    decreases |s|
  {
    if |s| > 0 {
      EscapedLength(s[1..]);
    }
  }

  /** The input with its braces removed. */
  function WithoutBraces(s: string): string
  {
    if |s| == 0 then "" else (if IsBrace(s[0]) then "" else [s[0]]) + WithoutBraces(s[1..])
  }

  lemma {:induction false} WithoutBracesAppend(a: string, b: string)
    ensures WithoutBraces(a + b) == WithoutBraces(a) + WithoutBraces(b)
    decreases |a|
  {
    if |a| == 0 {
      assert a + b == b;
    } else {
      assert (a + b)[0] == a[0];
      assert (a + b)[1..] == a[1..] + b;
      WithoutBracesAppend(a[1..], b);
    }
  }

  /** The non-brace characters come through unchanged and in order. */
  lemma {:induction false} EscapedKeepsOtherCharacters(s: string)
    ensures WithoutBraces(Escaped(s)) == WithoutBraces(s)
    decreases |s|
  {
    if |s| > 0 {
      WithoutBracesAppend(EscapeChar(s[0]), Escaped(s[1..]));
      EscapedKeepsOtherCharacters(s[1..]);
      if IsBrace(s[0]) {
        assert WithoutBraces([s[0], s[0]]) == "" + WithoutBraces([s[0]]);
        assert [s[0], s[0]][1..] == [s[0]];
        assert [s[0]][1..] == [];
      } else {
        assert [s[0]][1..] == [];
      }
    }
  }

  /** How the template engine reads the escaped text back: a doubled brace is one
      literal brace. */
  function Unescape(t: string): string
  {
    if |t| >= 2 && IsBrace(t[0]) && t[1] == t[0] then [t[0]] + Unescape(t[2..])
    else if |t| >= 1 then [t[0]] + Unescape(t[1..])
    else ""
  }

  /** Reading the escaped text back gives the original text. */
  lemma {:induction false} UnescapeEscaped(s: string)
    ensures Unescape(Escaped(s)) == s
    decreases |s|
  {
    if |s| > 0 {
      var t := Escaped(s);
      UnescapeEscaped(s[1..]);
      if IsBrace(s[0]) {
        assert t[2..] == Escaped(s[1..]);
      } else {
        assert t[1..] == Escaped(s[1..]);
        assert !(|t| >= 2 && IsBrace(t[0]));
      }
      assert s == [s[0]] + s[1..];
    }
  }

  /** The escaped text is a sequence of doubled braces and single other characters. */
  predicate PairedBraces(t: string)
    decreases |t|
  {
    if |t| == 0 then true
    else if IsBrace(t[0]) then |t| >= 2 && t[1] == t[0] && PairedBraces(t[2..])
    else PairedBraces(t[1..])
  }

  lemma {:induction false} EscapedIsPaired(s: string)
    ensures PairedBraces(Escaped(s))
    decreases |s|
  {
    if |s| > 0 {
      var t := Escaped(s);
      EscapedIsPaired(s[1..]);
      if IsBrace(s[0]) {
        assert t[2..] == Escaped(s[1..]);
      } else {
        assert t[1..] == Escaped(s[1..]);
      }
    }
  }

  /** In a paired text, a maximal run of one brace character has even length. */
  lemma {:induction false} PairedRunsEven(t: string, c: char, i: nat, j: nat)
    requires PairedBraces(t) && IsBrace(c)
    requires i <= j <= |t|
    requires forall k :: i <= k < j ==> t[k] == c
    requires i == 0 || t[i - 1] != c
    requires j == |t| || t[j] != c
    ensures (j - i) % 2 == 0
    decreases |t|
  {
    if i < j && |t| > 0 {
      if !IsBrace(t[0]) {
        assert i > 0;
        PairedRunsEven(t[1..], c, i - 1, j - 1);
      } else if i == 0 {
        assert t[0] == c && t[1] == c;
        assert j >= 2;
        PairedRunsEven(t[2..], c, 0, j - 2);
      } else {
        assert i >= 2;
        PairedRunsEven(t[2..], c, i - 2, j - 2);
      }
    }
  }

  /** Every maximal run of `{` (or of `}`) in the escaped text has even length. */
  lemma EscapedRunsEven(s: string, c: char, i: nat, j: nat)
    requires IsBrace(c)
    requires i <= j <= |EscapeBraces(s)|
    requires forall k :: i <= k < j ==> EscapeBraces(s)[k] == c
    requires i == 0 || EscapeBraces(s)[i - 1] != c
    requires j == |EscapeBraces(s)| || EscapeBraces(s)[j] != c
    ensures (j - i) % 2 == 0
  {
    TwoPassesCharwise(s);
    EscapedIsPaired(s);
    PairedRunsEven(EscapeBraces(s), c, i, j);
  }

  /** The two `replace` passes, `{` first, then `}`: one extra character per brace,
      the other characters unchanged, and the template engine's reading recovers the
      input. */
  function EscapeBraces(s: string): (r: string)
    ensures |r| == |s| + BraceCount(s)
    ensures WithoutBraces(r) == WithoutBraces(s)
    ensures Unescape(r) == s
  {
    TwoPassesCharwise(s);
    EscapedLength(s);
    EscapedKeepsOtherCharacters(s);
    UnescapeEscaped(s);
    DoubleChar(DoubleChar(s, '{'), '}')
  }

  /** A tool as the prompt lists it. */
  datatype ToolInfo = ToolInfo(name: string, description: string)

  /** `${index + 1}. ${tool.name}: ${tool.description}`. */
  function ToolLine(index: nat, tool: ToolInfo): (line: string)
    ensures IsPrefix(NatToString(index + 1) + ". ", line)
  {
    NatToString(index + 1) + ". " + tool.name + ": " + tool.description
  }

  function ToolLines(tools: seq<ToolInfo>): (lines: seq<string>)
    ensures |lines| == |tools|
    ensures forall i :: 0 <= i < |tools| ==> lines[i] == ToolLine(i, tools[i])
  {
    seq(|tools|, i requires 0 <= i < |tools| => ToolLine(i, tools[i]))
  }

  /** No line holds a newline when no name or description does. */
  lemma ToolLinesSingle(tools: seq<ToolInfo>)
    requires forall i :: 0 <= i < |tools| ==> Excludes(tools[i].name, '\n') && Excludes(tools[i].description, '\n')
    ensures forall i :: 0 <= i < |tools| ==> Excludes(ToolLines(tools)[i], '\n')
  {
    var lines := ToolLines(tools);
    forall i | 0 <= i < |lines|
      ensures Excludes(lines[i], '\n')
    {
      var digits := NatToString(i + 1);
      assert lines[i] == digits + ". " + tools[i].name + ": " + tools[i].description;
      forall k | 0 <= k < |lines[i]|
        ensures lines[i][k] != '\n'
      {
        if k < |digits| {
          assert lines[i][k] == digits[k];
          assert IsDigit(digits[k]);
        }
      }
    }
  }

  /** The listing: the numbered lines joined by newlines.  When no name or description
      holds a newline, splitting the listing at newlines gives back one line per tool,
      numbered from 1, in input order. */
  function ToolListing(tools: seq<ToolInfo>): (r: string)
    ensures |tools| > 0
            && (forall i :: 0 <= i < |tools| ==> Excludes(tools[i].name, '\n') && Excludes(tools[i].description, '\n'))
            ==> Split(r, '\n') == ToolLines(tools)
  {
    var lines := ToolLines(tools);
    if |tools| > 0 && forall i :: 0 <= i < |tools| ==> Excludes(tools[i].name, '\n') && Excludes(tools[i].description, '\n') then
      ToolLinesSingle(tools);
      JoinSplit(lines, '\n');
      Join(lines, "\n")
    else Join(lines, "\n")
  }
}
