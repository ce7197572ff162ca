/** alembic/env.py: the filter that decides which database objects autogenerate compares, and
  * the engine URL handed to Alembic's configuration with every '%' doubled. */
module AlembicEnv {
  import opened Wrappers
  import opened Text

  // ---- include_object ----

  /** The schemas whose tables are never migrated. */
  const ExcludedSchemas: set<string> := {"ag_catalog", "pg_jieba", "information_schema", "pg_catalog"}

  /** `include_object(object, name, type_, ...)`: `kind` is `type_`, and `schema` is the object's
    * `schema` attribute, None when it has none. The tests run in the source's order. */
  function IncludeObject(kind: string, name: string, schema: Option<string>): bool {
    if kind == "index" && StartsWith(name, "ix_") then true
    else if kind == "index" && StartsWith(name, "ag_") then false
    else if kind == "table" && schema.Some? && schema.value in ExcludedSchemas then false
    else if kind == "table" && StartsWith(name, "ag_") then false
    else true
  }

  /** The objects left out, as one rule per kind: "ag_" indexes, and tables that are "ag_" or
    * live in an excluded schema. */
  predicate Excluded(kind: string, name: string, schema: Option<string>) {
    || (kind == "index" && StartsWith(name, "ag_"))
    || (kind == "table" && ((schema.Some? && schema.value in ExcludedSchemas) || StartsWith(name, "ag_")))
  }

  /** No name carries both prefixes, so the order of the first two tests does not matter. */
  lemma PrefixesDisjoint(name: string)
    ensures !(StartsWith(name, "ix_") && StartsWith(name, "ag_"))
  {
    if StartsWith(name, "ix_") {
      assert name[0] == 'i';
    }
  }

  /** An object is included exactly when the declarative rule does not exclude it. */
  lemma IncludeObjectIff(kind: string, name: string, schema: Option<string>)
    ensures IncludeObject(kind, name, schema) <==> !Excluded(kind, name, schema)
  {
    PrefixesDisjoint(name);
  }

  /** An "ix_" index is always included. */
  lemma IxIndexIncluded(name: string, schema: Option<string>)
    requires StartsWith(name, "ix_")
    ensures IncludeObject("index", name, schema)
  {
  }

  /** An "ag_" index is always excluded. */
  lemma AgIndexExcluded(name: string, schema: Option<string>)
    requires StartsWith(name, "ag_")
    ensures !IncludeObject("index", name, schema)
  {
    PrefixesDisjoint(name);
  }

  /** A table in an excluded schema is excluded, whatever its name. */
  lemma TableInExcludedSchema(name: string, schema: string)
    requires schema in ExcludedSchemas
    ensures !IncludeObject("table", name, Some(schema))
  {
  }

  /** An "ag_" table is excluded, whatever its schema. */
  lemma AgTableExcluded(name: string, schema: Option<string>)
    requires StartsWith(name, "ag_")
    ensures !IncludeObject("table", name, schema)
  {
  }

  /** An index is judged by its name alone: the excluded schemas do not apply to it. */
  lemma IndexIgnoresSchema(name: string, s1: Option<string>, s2: Option<string>)
    ensures IncludeObject("index", name, s1) == IncludeObject("index", name, s2)
  {
  }

  /** Every object that is neither an index nor a table is included, and so is every index
    * without the "ag_" prefix, even in an excluded schema. */
  lemma OthersIncluded(kind: string, name: string, schema: Option<string>)
    ensures kind != "index" && kind != "table" ==> IncludeObject(kind, name, schema)
    ensures kind == "index" && !StartsWith(name, "ag_") ==> IncludeObject(kind, name, schema)
  {
  }

  // ---- get_engine_url ----

  /** `str.replace('%', '%%')`. */
  function EscapePercent(s: string): string {
    if s == [] then []
    else if s[0] == '%' then "%%" + EscapePercent(s[1..])
    else [s[0]] + EscapePercent(s[1..])
  }

  /** How the configuration reads the value back: "%%" stands for one '%', anything else for
    * itself. */
  function UnescapePercent(s: string): string {
    if s == [] then []
    else if |s| >= 2 && s[0] == '%' && s[1] == '%' then "%" + UnescapePercent(s[2..])
    else [s[0]] + UnescapePercent(s[1..])
  }

  /** The number of times `c` occurs in `s`. */
  function Count(s: string, c: char): nat {
    if s == [] then 0 else (if s[0] == c then 1 else 0) + Count(s[1..], c)
  }

  /** `get_engine_url()`: the URL rendered with its password when rendering is available
    * (`rendered`), otherwise `str(url)` (`plain`), with every '%' doubled. */
  function EngineUrl(rendered: Option<string>, plain: string): string {
    EscapePercent(if rendered.Some? then rendered.value else plain)
  }

  /** Reading the escaped text back gives the original. */
  lemma {:induction false} EscapeRoundTrip(s: string)
    ensures UnescapePercent(EscapePercent(s)) == s
  {
    if s != [] {
      var e := EscapePercent(s);
      EscapeRoundTrip(s[1..]);
      if s[0] == '%' {
        assert e[2..] == EscapePercent(s[1..]);
      } else {
        assert e[1..] == EscapePercent(s[1..]);
      }
      assert s == [s[0]] + s[1..];
    }
  }

  /** Escaping doubles the '%'s, keeps every other character's count, and lengthens the text by
    * one character per '%'. */
  lemma {:induction false} EscapeCounts(s: string, c: char)
    ensures Count(EscapePercent(s), '%') == 2 * Count(s, '%')
    ensures c != '%' ==> Count(EscapePercent(s), c) == Count(s, c)
    ensures |EscapePercent(s)| == |s| + Count(s, '%')
  {
    if s != [] {
      var e := EscapePercent(s);
      EscapeCounts(s[1..], c);
      if s[0] == '%' {
        assert e[1..][1..] == EscapePercent(s[1..]);
      } else {
        assert e[1..] == EscapePercent(s[1..]);
      }
    }
  }

  /** The configuration reads back exactly the URL that was rendered, or `str(url)` when
    * rendering was not available. */
  lemma EngineUrlReadsBack(rendered: Option<string>, plain: string)
    ensures rendered.Some? ==> UnescapePercent(EngineUrl(rendered, plain)) == rendered.value
    ensures rendered.None? ==> UnescapePercent(EngineUrl(rendered, plain)) == plain
  {
    EscapeRoundTrip(if rendered.Some? then rendered.value else plain);
  }
}
