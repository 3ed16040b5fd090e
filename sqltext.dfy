/**
 * The SQL text the engines build themselves: the `CREATE INDEX` statement, the
 * `RETURNING id` suffix of update queries, and the `ALTER TABLE ... ADD CONSTRAINT`
 * statement that the root engine obtains from a `str.format` template.
 * Parameter placeholders (`%(name)s`) are left in the text for the driver to bind.
 */
module SqlText {
  import opened Results

  /** The first position of `ch` in `s`, if any. */
  function IndexOf(s: string, ch: char): (r: Option<nat>)
    ensures r.Some? ==> r.value < |s| && s[r.value] == ch && ch !in s[..r.value]
    ensures r.None? ==> ch !in s
  {
    if s == [] then None
    else if s[0] == ch then Some(0)
    else match IndexOf(s[1..], ch)
      case None => None
      case Some(k) => Some(k + 1)
  }

  lemma IndexOfAfter(a: string, ch: char, b: string)
    requires ch !in a
    ensures IndexOf(a + [ch] + b, ch) == Some(|a|)
  {
    assert (a + [ch] + b)[|a|] == ch;
  }

  function StripPrefix(s: string, p: string): Option<string>
  {
    if |s| >= |p| && s[..|p|] == p then Some(s[|p|..]) else None
  }

  function StripSuffix(s: string, p: string): Option<string>
  {
    if |s| >= |p| && s[|s| - |p|..] == p then Some(s[..|s| - |p|]) else None
  }

  /** The text before the first `ch` and the text after it. */
  function SplitAt(s: string, ch: char): Option<(string, string)>
  {
    match IndexOf(s, ch)
    case None => None
    case Some(i) => Some((s[..i], s[i + 1..]))
  }

  lemma StripPrefixOf(p: string, s: string)
    ensures StripPrefix(p + s, p) == Some(s)
  {
    assert (p + s)[..|p|] == p;
    assert (p + s)[|p|..] == s;
  }

  lemma StripSuffixOf(s: string, p: string)
    ensures StripSuffix(s + p, p) == Some(s)
  {
    assert (s + p)[|s + p| - |p|..] == p;
    assert (s + p)[..|s + p| - |p|] == s;
  }

  lemma SplitAtOf(a: string, ch: char, b: string)
    requires ch !in a
    ensures SplitAt(a + [ch] + b, ch) == Some((a, b))
  {
    IndexOfAfter(a, ch, b);
    assert (a + [ch] + b)[..|a|] == a;
    assert (a + [ch] + b)[|a| + 1..] == b;
  }

  lemma StripPrefixBuilds(s: string, p: string)
    requires StripPrefix(s, p).Some?
    ensures s == p + StripPrefix(s, p).value
  {
    assert s == s[..|p|] + s[|p|..];
  }

  lemma StripSuffixBuilds(s: string, p: string)
    requires StripSuffix(s, p).Some?
    ensures s == StripSuffix(s, p).value + p
  {
    assert s == s[..|s| - |p|] + s[|s| - |p|..];
  }

  lemma SplitAtBuilds(s: string, ch: char)
    requires SplitAt(s, ch).Some?
    ensures s == SplitAt(s, ch).value.0 + [ch] + SplitAt(s, ch).value.1
    ensures ch !in SplitAt(s, ch).value.0
  {
    var i := IndexOf(s, ch).value;
    assert s == s[..i] + [ch] + s[i + 1..];
  }

  // ---------------------------------------------------------------------------
  // CREATE INDEX (easy_postgres_engine/postgres_engine.py:78, postgres_engine.py:60)

  const IndexPrefix: string := "CREATE INDEX IF NOT EXISTS "

  /** The index name the engines choose: `{tableName}_{column}`. */
  function IndexName(tableName: string, column: string): string
  {
    tableName + "_" + column
  }

  /** `f"CREATE INDEX IF NOT EXISTS {tableName}_{column} ON {tableName}({column});"` */
  function IndexQuery(tableName: string, column: string): string
  {
    IndexPrefix + IndexName(tableName, column) + " ON " + tableName + "(" + column + ");"
  }

  datatype IndexTarget = IndexTarget(tableName: string, column: string)

  /** Reads back which table and column an index statement of that shape targets, checking
      that the index is named after them. */
  function ParseIndexQuery(q: string): Option<IndexTarget>
  {
    match StripPrefix(q, IndexPrefix)
    case None => None
    case Some(rest) =>
      match SplitAt(rest, ' ')
      case None => None
      case Some((name, afterName)) =>
        match StripPrefix(afterName, "ON ")
        case None => None
        case Some(target) =>
          match SplitAt(target, '(')
          case None => None
          case Some((t, tail)) =>
            match StripSuffix(tail, ");")
            case None => None
            case Some(c) => if name == IndexName(t, c) then Some(IndexTarget(t, c)) else None
  }

  /** The statement cut where the parser cuts it. */
  lemma IndexQueryParts(t: string, c: string)
    ensures IndexQuery(t, c) == IndexPrefix + (IndexName(t, c) + [' '] + ("ON " + (t + ['('] + (c + ");"))))
  {
    assert " ON " == [' '] + "ON ";
    assert "(" == ['('];
  }

  /** For table and column names without blanks (and a table name without `(`), the
      statement creates the index `{tableName}_{column}` on exactly that table and column. */
  lemma IndexQueryParses(tableName: string, column: string)
    requires ' ' !in tableName && ' ' !in column && '(' !in tableName
    ensures ParseIndexQuery(IndexQuery(tableName, column)) == Some(IndexTarget(tableName, column))
  {
    var t, c := tableName, column;
    var name := IndexName(t, c);
    var tail := c + ");";
    var target := t + ['('] + tail;
    var afterName := "ON " + target;
    var rest := name + [' '] + afterName;
    IndexQueryParts(t, c);
    StripPrefixOf(IndexPrefix, rest);
    assert ' ' !in name;
    SplitAtOf(name, ' ', afterName);
    StripPrefixOf("ON ", target);
    SplitAtOf(t, '(', tail);
    StripSuffixOf(c, ");");
  }

  /** Conversely, whatever reads back as (t, c) is exactly the statement built for them. */
  lemma ParsedIndexQueryIsBuilt(q: string)
    requires ParseIndexQuery(q).Some?
    ensures q == IndexQuery(ParseIndexQuery(q).value.tableName, ParseIndexQuery(q).value.column)
  {
    var rest :| StripPrefix(q, IndexPrefix) == Some(rest);
    StripPrefixBuilds(q, IndexPrefix);
    var name, afterName :| SplitAt(rest, ' ') == Some((name, afterName));
    SplitAtBuilds(rest, ' ');
    var target :| StripPrefix(afterName, "ON ") == Some(target);
    StripPrefixBuilds(afterName, "ON ");
    var t, tail :| SplitAt(target, '(') == Some((t, tail));
    SplitAtBuilds(target, '(');
    var c :| StripSuffix(tail, ");") == Some(c);
    StripSuffixBuilds(tail, ");");
    assert ParseIndexQuery(q) == Some(IndexTarget(t, c)) && name == IndexName(t, c);
    IndexQueryParts(t, c);
  }

  /** The naming scheme is not one-to-one: ("a_b", "c") and ("a", "b_c") give the same
      index name, so `IF NOT EXISTS` makes the second statement create nothing. */
  lemma IndexNamesCollide()
    ensures IndexName("a_b", "c") == IndexName("a", "b_c")
    ensures IndexQuery("a_b", "c") != IndexQuery("a", "b_c")
  {
    assert IndexQuery("a_b", "c")[37] == '_';
    assert IndexQuery("a", "b_c")[37] == '(';
  }

  // ---------------------------------------------------------------------------
  // RETURNING id (easy_postgres_engine/postgres_engine.py:107-108, postgres_engine.py:97-98)

  const ReturningId: string := "\nRETURNING id"

  /** The text `run_update_query` executes: `f"{query}\nRETURNING id"` or the query as is. */
  function UpdateText(query: string, returnId: bool): string
  {
    if returnId then query + ReturningId else query
  }

  /** Removes the suffix `UpdateText` adds, if it is there. */
  function StripReturningId(text: string): Option<string>
  {
    StripSuffix(text, ReturningId)
  }

  /** With `returnId` the executed text is the query followed by exactly `\nRETURNING id`,
      and the query can be read back from it; without, it is the query unchanged. */
  lemma UpdateTextRoundTrip(query: string, returnId: bool)
    ensures returnId ==> StripReturningId(UpdateText(query, returnId)) == Some(query)
    ensures !returnId ==> UpdateText(query, returnId) == query
  {
    StripSuffixOf(query, ReturningId);
  }

  // ---------------------------------------------------------------------------
  // str.format with keyword arguments (postgres_engine.py:71-81)

  datatype FormatError =
    | KeyError(key: string)        // a field names no keyword argument
    | PositionalField              // `{}` or `{0}`: no positional argument is passed
    | UnmatchedOpenBrace           // a `{` with no `}` after it
    | SingleCloseBrace             // a `}` that is neither `}}` nor closes a field
    | OpenBraceInField             // `{` inside a field name
    | UnsupportedField             // conversion, format spec, attribute or index

  predicate AllDigits(s: string)
  {
    forall k :: 0 <= k < |s| ==> '0' <= s[k] <= '9'
  }

  /** A field name that `str.format` looks up as a keyword argument. */
  predicate PlainField(name: string)
  {
    && name != []
    && !AllDigits(name)
    && '{' !in name && '}' !in name
    && '!' !in name && ':' !in name && '.' !in name && '[' !in name
  }

  predicate BraceFree(s: string)
  {
    '{' !in s && '}' !in s
  }

  function Prepend(s: string, r: Outcome<string, FormatError>): Outcome<string, FormatError>
  {
    match r
    case Ok(text) => Ok(s + text)
    case Err(e) => r
  }

  /** `template.format(**args)`: `{{` and `}}` stand for single braces, `{name}` is
      replaced by `args[name]` verbatim (the inserted text is never scanned again). */
  function Format(template: string, args: map<string, string>): Outcome<string, FormatError>
    decreases |template|
  {
    if template == [] then Ok([])
    else if template[0] == '{' then
      if |template| > 1 && template[1] == '{' then Prepend("{", Format(template[2..], args))
      else match IndexOf(template[1..], '}')
        case None => Err(UnmatchedOpenBrace)
        case Some(k) =>
          var field := template[1..k + 1];
          if '{' in field then Err(OpenBraceInField)
          else if field == [] || AllDigits(field) then Err(PositionalField)
          else if !PlainField(field) then Err(UnsupportedField)
          else if field !in args then Err(KeyError(field))
          else Prepend(args[field], Format(template[k + 2..], args))
    else if template[0] == '}' then
      if |template| > 1 && template[1] == '}' then Prepend("}", Format(template[2..], args))
      else Err(SingleCloseBrace)
    else Prepend([template[0]], Format(template[1..], args))
  }

  /** Text without braces is copied unchanged. */
  lemma {:induction false} FormatLiteral(lit: string, rest: string, args: map<string, string>)
    requires BraceFree(lit)
    ensures Format(lit + rest, args) == Prepend(lit, Format(rest, args))
  {
    if lit == [] {
      assert lit + rest == rest;
      match Format(rest, args)
      case Ok(text) => assert lit + text == text;
      case Err(e) =>
    } else {
      assert (lit + rest)[0] == lit[0];
      assert (lit + rest)[1..] == lit[1..] + rest;
      FormatLiteral(lit[1..], rest, args);
      match Format(rest, args)
      case Ok(text) => assert [lit[0]] + (lit[1..] + text) == lit + text;
      case Err(e) =>
    }
  }

  /** A field is replaced by its argument, verbatim. */
  lemma FormatField(name: string, rest: string, args: map<string, string>)
    requires PlainField(name) && name in args
    ensures Format("{" + name + "}" + rest, args) == Prepend(args[name], Format(rest, args))
  {
    var t := "{" + name + "}" + rest;
    assert t[0] == '{';
    assert t[1..] == name + ['}'] + rest;
    IndexOfAfter(name, '}', rest);
    assert |name| > 0 ==> t[1] == name[0];
    assert t[1..|name| + 1] == name;
    assert t[|name| + 2..] == rest;
  }


  function ForeignKeyArgs(tableName: string, constraintName: string, foreignKeySQL: string): map<string, string>
  {
    map["tableName" := tableName, "constraintName" := constraintName, "foreignKeySQL" := foreignKeySQL]
  }

  const ForeignKeyHead: string := "\n            ALTER TABLE "
  const ForeignKeyMiddle: string := " \n            ADD CONSTRAINT "
  const ForeignKeyTail: string := ";\n        "

  /** `FOREIGN_KEY_QUERY` of postgres_engine.py:71-74, with its line breaks and indentation:
      "\n            ALTER TABLE {tableName} \n            ADD CONSTRAINT {constraintName} {foreignKeySQL};\n        " */
  const ForeignKeyTemplate: string :=
    ForeignKeyHead + "{tableName}" + ForeignKeyMiddle + "{constraintName}" + " " + "{foreignKeySQL}" + ForeignKeyTail

  lemma PrependPrepend(a: string, b: string, r: Outcome<string, FormatError>)
    ensures Prepend(a, Prepend(b, r)) == Prepend(a + b, r)
  {
    if r.Ok? {
      assert a + (b + r.value) == (a + b) + r.value;
    }
  }

  /** Literal text followed by one field. */
  lemma FormatLiteralField(lit: string, name: string, rest: string, args: map<string, string>)
    requires BraceFree(lit) && PlainField(name) && name in args
    ensures Format(lit + ("{" + name + "}" + rest), args) == Prepend(lit + args[name], Format(rest, args))
  {
    FormatLiteral(lit, "{" + name + "}" + rest, args);
    FormatField(name, rest, args);
    PrependPrepend(lit, args[name], Format(rest, args));
  }

  lemma ForeignKeyLiteralsBraceFree()
    ensures BraceFree(ForeignKeyHead) && BraceFree(ForeignKeyMiddle) && BraceFree(" ") && BraceFree(ForeignKeyTail)
  {
  }

  lemma ForeignKeyTemplateParts()
    ensures ForeignKeyTemplate == ForeignKeyHead + ("{" + "tableName" + "}" + (ForeignKeyMiddle +
      ("{" + "constraintName" + "}" + (" " + ("{" + "foreignKeySQL" + "}" + ForeignKeyTail)))))
  {
    assert "{tableName}" == "{" + "tableName" + "}";
    assert "{constraintName}" == "{" + "constraintName" + "}";
    assert "{foreignKeySQL}" == "{" + "foreignKeySQL" + "}";
  }

  lemma ForeignKeyFieldsArePlain()
    ensures PlainField("tableName") && PlainField("constraintName") && PlainField("foreignKeySQL")
  {
    assert "tableName"[0] == 't';
    assert "constraintName"[0] == 'c';
    assert "foreignKeySQL"[0] == 'f';
  }

  lemma ForeignKeyStep(lit: string, name: string, rest: string, args: map<string, string>, out: string)
    requires lit == ForeignKeyHead || lit == ForeignKeyMiddle || lit == " "
    requires name == "tableName" || name == "constraintName" || name == "foreignKeySQL"
    requires name in args && Format(rest, args) == Ok(out)
    ensures Format(lit + ("{" + name + "}" + rest), args) == Ok(lit + args[name] + out)
  {
    ForeignKeyLiteralsBraceFree();
    ForeignKeyFieldsArePlain();
    FormatLiteralField(lit, name, rest, args);
  }

  lemma ForeignKeyLast(args: map<string, string>)
    ensures Format(ForeignKeyTail, args) == Ok(ForeignKeyTail)
  {
    ForeignKeyLiteralsBraceFree();
    FormatLiteral(ForeignKeyTail, [], args);
    assert ForeignKeyTail + [] == ForeignKeyTail;
  }

  lemma Reassociate(h: string, a: string, m: string, b: string, s: string, c: string, t: string)
    ensures h + a + (m + b + (s + c + t)) == h + a + m + b + s + c + t
  {
  }

  /** Formatting the template never fails, and each argument appears verbatim in its place,
      whatever characters (braces included) it contains. */
  lemma FormatForeignKey(tableName: string, constraintName: string, foreignKeySQL: string)
    ensures Format(ForeignKeyTemplate, ForeignKeyArgs(tableName, constraintName, foreignKeySQL))
         == Ok(ForeignKeyHead + tableName + ForeignKeyMiddle + constraintName + " " + foreignKeySQL + ForeignKeyTail)
  {
    var args := ForeignKeyArgs(tableName, constraintName, foreignKeySQL);
    var r2 := " " + ("{" + "foreignKeySQL" + "}" + ForeignKeyTail);
    var r1 := ForeignKeyMiddle + ("{" + "constraintName" + "}" + r2);
    var s2 := " " + foreignKeySQL + ForeignKeyTail;
    var s1 := ForeignKeyMiddle + constraintName + s2;
    ForeignKeyLast(args);
    ForeignKeyStep(" ", "foreignKeySQL", ForeignKeyTail, args, ForeignKeyTail);
    ForeignKeyStep(ForeignKeyMiddle, "constraintName", r2, args, s2);
    ForeignKeyStep(ForeignKeyHead, "tableName", r1, args, s1);
    ForeignKeyTemplateParts();
    Reassociate(ForeignKeyHead, tableName, ForeignKeyMiddle, constraintName, " ", foreignKeySQL, ForeignKeyTail);
  }
}
