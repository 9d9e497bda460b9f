/**
 * Escaping of Markdown table cells: every `|` in a cell becomes `\|`, so the
 * cell cannot close its column early (pivotal-import/pivotal_import.py,
 * `escape_md_table_syntax`).
 */
module Markdown {

  /** Number of `|` characters in `s`. */
  function PipeCount(s: string): nat {
    if s == [] then 0 else (if s[0] == '|' then 1 else 0) + PipeCount(s[1..])
  }

  /** `s.replace("|", "\\|")`: the result is one character longer per pipe. */
  function EscapeMdTableSyntax(s: string): (r: string)
    ensures |r| == |s| + PipeCount(s)
  {
    if s == [] then []
    else (if s[0] == '|' then "\\|" else [s[0]]) + EscapeMdTableSyntax(s[1..])
  }

  /** No pipe in an escaped cell stands without a backslash in front of it. */
  lemma {:induction false} EscapedPipesArePreceded(s: string)
    ensures forall i :: 0 <= i < |EscapeMdTableSyntax(s)| && EscapeMdTableSyntax(s)[i] == '|' ==>
      0 < i && EscapeMdTableSyntax(s)[i - 1] == '\\'
  {
    if s != [] {
      var head := if s[0] == '|' then "\\|" else [s[0]];
      var rest := EscapeMdTableSyntax(s[1..]);
      var r := EscapeMdTableSyntax(s);
      assert r == head + rest;
      EscapedPipesArePreceded(s[1..]);
      forall i | 0 <= i < |r| && r[i] == '|'
        ensures 0 < i && r[i - 1] == '\\'
      {
        if i < |head| {
          assert r[i] == head[i];
        } else {
          assert r[i] == rest[i - |head|];
          assert r[i - 1] == rest[i - |head| - 1];
        }
      }
    }
  }

  /** Reads an escaped cell back: each `\|` stands for one `|`. */
  function UnescapeMdTableSyntax(r: string): string {
    if |r| >= 2 && r[0] == '\\' && r[1] == '|' then "|" + UnescapeMdTableSyntax(r[2..])
    else if r == [] then []
    else [r[0]] + UnescapeMdTableSyntax(r[1..])
  }

  /** Escaping loses nothing: the original cell text is recovered from the escaped one. */
  lemma {:induction false} UnescapeEscape(s: string)
    ensures UnescapeMdTableSyntax(EscapeMdTableSyntax(s)) == s
  {
    if s != [] {
      var rest := EscapeMdTableSyntax(s[1..]);
      UnescapeEscape(s[1..]);
      if s[0] == '|' {
        assert EscapeMdTableSyntax(s) == "\\|" + rest;
        assert (("\\|" + rest)[2..]) == rest;
      } else {
        assert EscapeMdTableSyntax(s) == [s[0]] + rest;
        // `rest` never starts with a pipe, so a backslash in `s[0]` is kept as it is.
        assert |rest| > 0 ==> rest[0] != '|';
        assert ([s[0]] + rest)[1..] == rest;
      }
    }
  }

  /** A cell without pipes is left as it is. */
  lemma {:induction false} EscapeKeepsPipeFree(s: string)
    requires forall i :: 0 <= i < |s| ==> s[i] != '|'
    ensures EscapeMdTableSyntax(s) == s
  {
    if s != [] {
      EscapeKeepsPipeFree(s[1..]);
    }
  }
}
