/** The part of Python's `string.Formatter().parse` that decides whether a
    format string is accepted: LangChain parses every f-string template
    with it when the template is built, and a ValueError from the parser
    is raised out of the constructor. Only acceptance is modelled, not the
    parsed fields nor the text of the error. */
module PyFormat {

  predicate IsBrace(c: char) {
    c == '{' || c == '}'
  }

  /** `string.Formatter().parse(t)` runs to the end without raising. */
  predicate FormatParses(t: string) {
    LiteralParses(t, 0)
  }

  /** Scanning literal text from position `i`. A doubled brace is a
      literal brace; a single `}` raises ("Single '}' encountered"), a `{`
      at the very end raises ("Single '{' encountered"), and any other
      `{` opens a replacement field. */
  predicate LiteralParses(t: string, i: nat)
    requires i <= |t|
    decreases |t| - i
  {
    if i == |t| then true
    else if t[i] == '}' then
      i + 1 < |t| && t[i + 1] == '}' && LiteralParses(t, i + 2)
    else if t[i] == '{' then
      i + 1 < |t| &&
      (if t[i + 1] == '{' then LiteralParses(t, i + 2)
       else FieldParses(t, i + 1))
    else LiteralParses(t, i + 1)
  }

  /** Scanning the field name of a replacement field, now at `j`. A `{`
      raises ("unexpected '{' in field name") and `[` starts an index that
      runs to the next `]`. The name ends at `}` (the field is done), at
      `:` (a format spec follows) or at `!`: the character after it is the
      conversion, whatever it is, and must be followed by `}` or `:`. The
      text running out first raises ("expected '}' before end of string"). */
  predicate FieldParses(t: string, j: nat)
    requires j <= |t|
    decreases |t| - j
  {
    if j == |t| then false
    else if t[j] == '{' then false
    else if t[j] == '[' then IndexParses(t, j + 1)
    else if t[j] == '}' then LiteralParses(t, j + 1)
    else if t[j] == ':' then SpecParses(t, j + 1, 1)
    else if t[j] == '!' then
      j + 2 < |t| &&
      ((t[j + 2] == '}' && LiteralParses(t, j + 3)) || (t[j + 2] == ':' && SpecParses(t, j + 3, 1)))
    else FieldParses(t, j + 1)
  }

  /** Inside `[...]` of a field name: everything up to the `]` is taken. */
  predicate IndexParses(t: string, k: nat)
    requires k <= |t|
    decreases |t| - k
  {
    if k == |t| then false
    else if t[k] == ']' then FieldParses(t, k + 1)
    else IndexParses(t, k + 1)
  }

  /** Scanning a format spec with `depth` unclosed braces: nested fields
      are counted, and the spec ends at the `}` that closes the field
      ("unmatched '{' in format spec" when the text runs out first). */
  predicate SpecParses(t: string, j: nat, depth: nat)
    requires j <= |t|
    decreases |t| - j
  {
    if j == |t| then false
    else if t[j] == '{' then SpecParses(t, j + 1, depth + 1)
    else if t[j] == '}' then
      if depth <= 1 then LiteralParses(t, j + 1) else SpecParses(t, j + 1, depth - 1)
    else SpecParses(t, j + 1, depth)
  }

  /** The characters that end or interrupt a field name. */
  predicate IsNameSpecial(c: char) {
    c == '{' || c == '}' || c == '[' || c == ':' || c == '!'
  }

  /** Literal text without braces is passed over unchanged. */
  lemma {:induction false} LiteralSkip(t: string, i: nat, m: nat)
    requires i <= m <= |t|
    requires forall k :: i <= k < m ==> !IsBrace(t[k])
    ensures LiteralParses(t, i) == LiteralParses(t, m)
    decreases m - i
  {
    if i < m {
      LiteralSkip(t, i + 1, m);
    }
  }

  /** In a field name, ordinary characters change nothing. */
  lemma {:induction false} FieldSkip(t: string, j: nat, m: nat)
    requires j <= m <= |t|
    requires forall k :: j <= k < m ==> !IsNameSpecial(t[k])
    ensures FieldParses(t, j) == FieldParses(t, m)
    decreases m - j
  {
    if j < m {
      FieldSkip(t, j + 1, m);
    }
  }

  /** In a format spec, text without braces changes nothing. */
  lemma {:induction false} SpecSkip(t: string, j: nat, m: nat, depth: nat)
    requires j <= m <= |t|
    requires forall k :: j <= k < m ==> !IsBrace(t[k])
    ensures SpecParses(t, j, depth) == SpecParses(t, m, depth)
    decreases m - j
  {
    if j < m {
      SpecSkip(t, j + 1, m, depth);
    }
  }

  /** A text without braces is always accepted. */
  lemma NoBracesParse(t: string)
    requires forall k :: 0 <= k < |t| ==> !IsBrace(t[k])
    ensures FormatParses(t)
  {
    LiteralSkip(t, 0, |t|);
  }
}
