/** Expansion of the schema template: five chained string replacements of placeholders by quoted
    identifiers, against the simultaneous substitution they stand for. */
module Template {
  import opened Wrappers

  /** Python's `str.replace`, for a non-empty pattern. */
  function Replace(s: string, p: string, r: string): string
    requires p != ""
  {
    if s == "" then ""
    else if p <= s then r + Replace(s[|p|..], p, r)
    else [s[0]] + Replace(s[1..], p, r)
  }

  // ----- Quoted identifiers

  function Doubled(raw: string): string {
    Replace(raw, "\"", "\"\"")
  }

  function QuoteIdent(raw: string): string {
    "\"" + Doubled(raw) + "\""
  }

  /** The rest of a quoted identifier after its opening quote, as section 4.1.1 of the PostgreSQL
      manual reads it: a doubled quote is a quote, a single one ends the identifier. */
  function LexRest(s: string): Option<(string, string)> {
    if s == "" then None
    else if s[0] != '"' then
      var rest := LexRest(s[1..]);
      if rest.None? then None else Some(([s[0]] + rest.value.0, rest.value.1))
    else if |s| >= 2 && s[1] == '"' then
      var rest := LexRest(s[2..]);
      if rest.None? then None else Some(("\"" + rest.value.0, rest.value.1))
    else Some(("", s[1..]))
  }

  function LexIdent(s: string): Option<(string, string)> {
    if s == "" || s[0] != '"' then None else LexRest(s[1..])
  }

  /** Two quoted identifiers with a dot between them. */
  function LexQualified(s: string): Option<(string, string, string)> {
    var first := LexIdent(s);
    if first.None? || first.value.1 == "" || first.value.1[0] != '.' then None
    else
      var second := LexIdent(first.value.1[1..]);
      if second.None? then None else Some((first.value.0, second.value.0, second.value.1))
  }

  function Head(raw: string): string
    requires raw != ""
  {
    if raw[0] == '"' then "\"\"" else [raw[0]]
  }

  // A quoted identifier after its opening quote, and the text behind it.
  function Body(raw: string, t: string): string {
    Doubled(raw) + ("\"" + t)
  }

  lemma DoubledCons(raw: string)
    requires raw != ""
    ensures Doubled(raw) == Head(raw) + Doubled(raw[1..])
  {
  }

  lemma BodyCons(raw: string, t: string)
    requires raw != ""
    ensures Body(raw, t) == Head(raw) + Body(raw[1..], t)
  {
    DoubledCons(raw);
    assert (Head(raw) + Doubled(raw[1..])) + ("\"" + t) == Head(raw) + (Doubled(raw[1..]) + ("\"" + t));
  }

  lemma QuotedIsBody(raw: string, t: string)
    ensures QuoteIdent(raw) + t == ['"'] + Body(raw, t)
  {
  }

  lemma {:induction false} LexRestDoubled(raw: string, t: string)
    requires t == "" || t[0] != '"'
    ensures LexRest(Body(raw, t)) == Some((raw, t))
  {
    if raw == "" {
      assert Body(raw, t)[1..] == t;
    } else {
      BodyCons(raw, t);
      LexRestDoubled(raw[1..], t);
      assert Body(raw, t)[|Head(raw)|..] == Body(raw[1..], t);
      assert [raw[0]] + raw[1..] == raw;
    }
  }

  /** Whatever the name, quoting it and reading it back gives the name. */
  lemma LexQuoted(raw: string, t: string)
    requires t == "" || t[0] != '"'
    ensures LexIdent(QuoteIdent(raw) + t) == Some((raw, t))
  {
    LexRestDoubled(raw, t);
    QuotedIsBody(raw, t);
  }

  lemma LexQualifiedQuoted(a: string, b: string, t: string)
    requires t == "" || t[0] != '"'
    ensures LexQualified(QuoteIdent(a) + "." + QuoteIdent(b) + t) == Some((a, b, t))
  {
    var tail := "." + QuoteIdent(b) + t;
    LexQuoted(a, tail);
    assert QuoteIdent(a) + "." + QuoteIdent(b) + t == QuoteIdent(a) + tail;
    LexQuoted(b, t);
    assert tail[1..] == QuoteIdent(b) + t;
  }

  // ----- Placeholders

  function Hole(name: string): string {
    ":\"" + name + "\""
  }

  // Text without a colon, where no placeholder starts.
  predicate Plain(u: string) {
    forall k | 0 <= k < |u| :: u[k] != ':'
  }

  predicate IsName(name: string) {
    name != "" && forall k | 0 <= k < |name| :: name[k] != ':' && name[k] != '"'
  }

  /** The index of the placeholder that `s` starts with. */
  function FindHole(s: string, names: seq<string>): (i: Option<nat>)
    ensures i.Some? ==> i.value < |names| && Hole(names[i.value]) <= s
    ensures i.None? ==> forall n | n in names :: !(Hole(n) <= s)
  {
    if names == [] then None
    else
      var init := names[..|names| - 1];
      assert names == init + [names[|names| - 1]];
      var i := FindHole(s, init);
      if i.Some? then i
      else if Hole(names[|names| - 1]) <= s then Some(|names| - 1)
      else None
  }

  /** Simultaneous substitution: every placeholder of the line becomes its quoted identifier. */
  function Expand(s: string, names: seq<string>, raws: seq<string>): string
    requires |names| == |raws|
  {
    if s == "" then ""
    else
      var i := FindHole(s, names);
      if i.Some? then QuoteIdent(raws[i.value]) + Expand(s[|Hole(names[i.value])|..], names, raws)
      else [s[0]] + Expand(s[1..], names, raws)
  }

  predicate StartsWithHole(s: string, all: seq<string>) {
    FindHole(s, all).Some?
  }

  /** Text that would complete a placeholder begun by `:"`. */
  predicate Completes(s: string, name: string, all: seq<string>) {
    name <= s && (("\"" <= s[|name|..]) || StartsWithHole(s[|name|..], all))
  }

  /** What must not surround a placeholder: text before it, or after it, that could form another
      placeholder together with the quotes of the identifier. */
  predicate SafeHere(s: string, all: seq<string>) {
    && (forall m, n | m in all && n in all && Hole(m) <= s :: !Completes(s[|Hole(m)|..], n, all))
    && (s != "" && s[0] == ':' ==> !StartsWithHole(s[1..], all))
    && (|s| >= 2 && s[0] == ':' && s[1] == '"' ==>
          forall n | n in all && n <= s[2..] :: !StartsWithHole(s[2..][|n|..], all))
  }

  predicate Safe(s: string, all: seq<string>) {
    SafeHere(s, all) && (s != "" ==> Safe(s[1..], all))
  }

  lemma {:induction false} SafeSuffix(s: string, k: nat, all: seq<string>)
    requires Safe(s, all) && k <= |s|
    ensures Safe(s[k..], all)
  {
    if k == 0 {
      assert s[0..] == s;
    } else {
      SafeSuffix(s[1..], k - 1, all);
      assert s[1..][k - 1..] == s[k..];
    }
  }

  // ----- No capture inside or across the end of a quoted identifier

  lemma ReplaceSkips(c: char, s: string, p: string, r: string)
    requires p != "" && !(p <= [c] + s)
    ensures Replace([c] + s, p, r) == [c] + Replace(s, p, r)
  {
    assert ([c] + s)[1..] == s;
  }

  /** The characters of a placeholder, where a string starts with it. */
  lemma HoleAt(name: string, s: string)
    requires Hole(name) <= s
    ensures s[0] == ':' && s[1] == '"' && name + "\"" <= s[2..]
    ensures name != "" ==> s[2] == name[0]
  {
    assert s[0] == Hole(name)[0] && s[1] == Hole(name)[1];
    assert s[2..][..|name| + 1] == s[..|Hole(name)|][2..];
    assert Hole(name)[2..] == name + "\"";
    if name != "" {
      assert s[2] == Hole(name)[2];
    }
  }

  lemma SkipPlain(c: char, s: string, name: string, r: string)
    requires c != ':'
    ensures Replace([c] + s, Hole(name), r) == [c] + Replace(s, Hole(name), r)
  {
    if Hole(name) <= [c] + s {
      HoleAt(name, [c] + s);
    }
    ReplaceSkips(c, s, Hole(name), r);
  }

  /** A colon in a name and a doubled quote after it do not look like the start of a placeholder;
      nor does a colon at its end, unless the text behind the identifier completes one. */
  lemma NoHoleAfterColon(raw: string, t: string, name: string)
    requires IsName(name) && !(name + "\"" <= t)
    ensures !(Hole(name) <= [':'] + Body(raw, t))
  {
    assert raw == "" ==> ([':'] + Body(raw, t))[2..] == t;
    if Hole(name) <= [':'] + Body(raw, t) {
      HoleAt(name, [':'] + Body(raw, t));
      if raw != "" {
        BodyCons(raw, t);
      }
    }
  }

  lemma BodySkips(raw: string, t: string, name: string, r: string)
    requires raw != "" && IsName(name) && !(name + "\"" <= t)
    ensures Replace(Body(raw, t), Hole(name), r) == Head(raw) + Replace(Body(raw[1..], t), Hole(name), r)
  {
    var after := Body(raw[1..], t);
    BodyCons(raw, t);
    if raw[0] == '"' {
      assert Body(raw, t) == ['"'] + (['"'] + after);
      SkipPlain('"', ['"'] + after, name, r);
      SkipPlain('"', after, name, r);
    } else if raw[0] == ':' {
      NoHoleAfterColon(raw[1..], t, name);
      ReplaceSkips(':', after, Hole(name), r);
    } else {
      SkipPlain(raw[0], after, name, r);
    }
  }

  lemma {:induction false} BodyNoCapture(raw: string, t: string, name: string, r: string)
    requires IsName(name) && !(name + "\"" <= t)
    ensures Replace(Body(raw, t), Hole(name), r) == Body(raw, Replace(t, Hole(name), r))
  {
    if raw == "" {
      assert Body(raw, t) == ['"'] + t;
      SkipPlain('"', t, name, r);
    } else {
      BodySkips(raw, t, name, r);
      BodyNoCapture(raw[1..], t, name, r);
      BodyCons(raw, Replace(t, Hole(name), r));
    }
  }

  /** Replacing a placeholder goes past a quoted identifier untouched. */
  lemma QuotedNoCapture(raw: string, t: string, name: string, r: string)
    requires IsName(name) && !(name + "\"" <= t)
    ensures Replace(QuoteIdent(raw) + t, Hole(name), r) == QuoteIdent(raw) + Replace(t, Hole(name), r)
  {
    QuotedIsBody(raw, t);
    SkipPlain('"', Body(raw, t), name, r);
    BodyNoCapture(raw, t, name, r);
    QuotedIsBody(raw, Replace(t, Hole(name), r));
  }

  // ----- One replacement extends the substitution by one placeholder

  predicate AmongNames(names: seq<string>, all: seq<string>) {
    forall n | n in names :: n in all && IsName(n)
  }

  lemma HoleFound(s: string, name: string, all: seq<string>)
    requires name in all && Hole(name) <= s
    ensures StartsWithHole(s, all)
  {
  }

  lemma FindHoleSnoc(s: string, names: seq<string>, name: string)
    ensures FindHole(s, names + [name]) == if FindHole(s, names).Some? then FindHole(s, names)
                                          else if Hole(name) <= s then Some(|names|) else None
  {
    assert (names + [name])[..|names|] == names;
  }

  lemma NoHoleWithoutColon(s: string, names: seq<string>)
    requires s != "" && s[0] != ':'
    ensures FindHole(s, names) == None
  {
    var i := FindHole(s, names);
    if i.Some? {
      HoleAt(names[i.value], s);
    }
  }

  lemma ExpandChar(c: char, t: string, names: seq<string>, raws: seq<string>)
    requires |names| == |raws| && FindHole([c] + t, names).None?
    ensures Expand([c] + t, names, raws) == [c] + Expand(t, names, raws)
  {
    assert ([c] + t)[1..] == t;
  }

  lemma Regroup(u: string, t: string)
    requires u != ""
    ensures [u[0]] + (u[1..] + t) == u + t
  {
  }

  lemma {:induction false} ExpandPlain(u: string, t: string, names: seq<string>, raws: seq<string>)
    requires |names| == |raws| && Plain(u)
    ensures Expand(u + t, names, raws) == u + Expand(t, names, raws)
  {
    if u == "" {
      assert u + t == t;
    } else {
      assert u + t == [u[0]] + (u[1..] + t);
      NoHoleWithoutColon(u + t, names);
      ExpandChar(u[0], u[1..] + t, names, raws);
      ExpandPlain(u[1..], t, names, raws);
      Regroup(u, Expand(t, names, raws));
    }
  }

  /** If the expanded text completes a placeholder begun by `:"`, then the line already does. */
  lemma {:induction false} ExpandedCompletes(s: string, names: seq<string>, raws: seq<string>, name: string, all: seq<string>)
    requires |names| == |raws| && AmongNames(names, all)
    requires forall k | 0 <= k < |name| :: name[k] != '"'
    requires name + "\"" <= Expand(s, names, raws)
    ensures Completes(s, name, all)
  {
    var e := Expand(s, names, raws);
    var i := FindHole(s, names);
    assert (name + "\"")[0] == e[0];
    if name == "" {
      assert s[0..] == s;
      if i.Some? {
        HoleFound(s, names[i.value], all);
      }
    } else {
      assert i.None?;
      assert name == [name[0]] + name[1..];
      assert e[1..][..|name|] == name[1..] + "\"" by {
        assert e[..|name| + 1] == name + "\"";
      }
      ExpandedCompletes(s[1..], names, raws, name[1..], all);
      assert s == [s[0]] + s[1..];
      assert s[1..][|name[1..]|..] == s[|name|..];
    }
  }

  function Inner(name: string): string {
    "\"" + name + "\""
  }

  lemma HoleSplit(name: string, t: string)
    ensures Hole(name) + t == [':'] + (Inner(name) + t)
  {
  }

  lemma ExpandHole(name: string, rest: string, names: seq<string>, raws: seq<string>)
    requires |names| == |raws| && IsName(name) && FindHole([':'] + (Inner(name) + rest), names).None?
    ensures Expand([':'] + (Inner(name) + rest), names, raws) == Hole(name) + Expand(rest, names, raws)
  {
    ExpandChar(':', Inner(name) + rest, names, raws);
    ExpandPlain(Inner(name), rest, names, raws);
    HoleSplit(name, Expand(rest, names, raws));
  }

  lemma ReplaceHere(p: string, t: string, r: string)
    requires p != ""
    ensures Replace(p + t, p, r) == r + Replace(t, p, r)
  {
    assert (p + t)[|p|..] == t;
  }

  lemma QuoteComesFromLine(u: string, names: seq<string>, raws: seq<string>, all: seq<string>)
    requires |names| == |raws| && AmongNames(names, all) && !StartsWithHole(u, all)
    requires var e := Expand(u, names, raws); e != "" && e[0] == '"'
    ensures u != "" && u[0] == '"' && Expand(u, names, raws)[1..] == Expand(u[1..], names, raws)
  {
    assert FindHole(u, names).None?;
  }

  /** A colon in the line, and quotes that the expansion puts behind it, do not form a placeholder. */
  lemma ColonCase(u: string, names: seq<string>, raws: seq<string>, name: string, all: seq<string>)
    requires |names| == |raws| && AmongNames(names, all) && name in all && IsName(name)
    requires !StartsWithHole(u, all) && !(Hole(name) <= [':'] + u)
    requires u != "" && u[0] == '"' && name <= u[1..] ==> !StartsWithHole(u[1..][|name|..], all)
    ensures !(Hole(name) <= [':'] + Expand(u, names, raws))
  {
    var t := Expand(u, names, raws);
    if Hole(name) <= [':'] + t {
      HoleAt(name, [':'] + t);
      QuoteComesFromLine(u, names, raws, all);
      assert ([':'] + t)[2..] == t[1..];
      ExpandedCompletes(u[1..], names, raws, name, all);
    }
  }

  /** The line starts with a placeholder that is already substituted. */
  lemma SubstitutedCase(rest: string, names: seq<string>, raws: seq<string>, name: string, raw: string, known: string, all: seq<string>)
    requires |names| == |raws| && AmongNames(names, all) && IsName(name) && !Completes(rest, name, all)
    ensures Replace(QuoteIdent(known) + Expand(rest, names, raws), Hole(name), QuoteIdent(raw))
         == QuoteIdent(known) + Replace(Expand(rest, names, raws), Hole(name), QuoteIdent(raw))
  {
    if name + "\"" <= Expand(rest, names, raws) {
      ExpandedCompletes(rest, names, raws, name, all);
    }
    QuotedNoCapture(known, Expand(rest, names, raws), name, QuoteIdent(raw));
  }

  /** The line starts with the placeholder to substitute. */
  lemma HoleCase(rest: string, names: seq<string>, raws: seq<string>, name: string, raw: string)
    requires |names| == |raws| && IsName(name) && FindHole(Hole(name) + rest, names).None?
    ensures Replace(Expand(Hole(name) + rest, names, raws), Hole(name), QuoteIdent(raw))
         == QuoteIdent(raw) + Replace(Expand(rest, names, raws), Hole(name), QuoteIdent(raw))
  {
    HoleSplit(name, rest);
    ExpandHole(name, rest, names, raws);
    ReplaceHere(Hole(name), Expand(rest, names, raws), QuoteIdent(raw));
  }

  /** The line starts with any other character. */
  lemma CharCase(c: char, t: string, names: seq<string>, raws: seq<string>, name: string, raw: string, all: seq<string>)
    requires |names| == |raws| && AmongNames(names, all) && name in all && IsName(name) && SafeHere([c] + t, all)
    requires FindHole([c] + t, names).None? && !(Hole(name) <= [c] + t)
    ensures Replace(Expand([c] + t, names, raws), Hole(name), QuoteIdent(raw))
         == [c] + Replace(Expand(t, names, raws), Hole(name), QuoteIdent(raw))
  {
    ExpandChar(c, t, names, raws);
    if c == ':' {
      assert ([c] + t)[1..] == t;
      assert |t| >= 1 ==> ([c] + t)[2..] == t[1..];
      ColonCase(t, names, raws, name, all);
      ReplaceSkips(':', Expand(t, names, raws), Hole(name), QuoteIdent(raw));
    } else {
      SkipPlain(c, Expand(t, names, raws), name, QuoteIdent(raw));
    }
  }

  /** Replacing one more placeholder in an expanded line expands it by one more placeholder. */
  lemma {:induction false} ReplaceExpands(s: string, names: seq<string>, raws: seq<string>, name: string, raw: string, all: seq<string>)
    requires |names| == |raws| && AmongNames(names, all) && name in all && IsName(name) && Safe(s, all)
    ensures Replace(Expand(s, names, raws), Hole(name), QuoteIdent(raw)) == Expand(s, names + [name], raws + [raw])
    decreases |s|
  {
    if s != "" {
      var i := FindHole(s, names);
      FindHoleSnoc(s, names, name);
      if i.Some? {
        var rest := s[|Hole(names[i.value])|..];
        SafeSuffix(s, |Hole(names[i.value])|, all);
        ReplaceExpands(rest, names, raws, name, raw, all);
        SubstitutedCase(rest, names, raws, name, raw, raws[i.value], all);
      } else if Hole(name) <= s {
        var rest := s[|Hole(name)|..];
        SafeSuffix(s, |Hole(name)|, all);
        ReplaceExpands(rest, names, raws, name, raw, all);
        assert s == Hole(name) + rest;
        HoleCase(rest, names, raws, name, raw);
      } else {
        ReplaceExpands(s[1..], names, raws, name, raw, all);
        assert s == [s[0]] + s[1..];
        CharCase(s[0], s[1..], names, raws, name, raw, all);
      }
    }
  }

  // ----- Lines of the template

  lemma {:induction false} SafePlain(u: string, t: string, all: seq<string>)
    requires Safe(t, all) && Plain(u)
    ensures Safe(u + t, all)
  {
    if u == "" {
      assert u + t == t;
    } else {
      assert (u + t)[1..] == u[1..] + t;
      SafePlain(u[1..], t, all);
      forall m | m in all && Hole(m) <= u + t ensures false {
        HoleAt(m, u + t);
      }
    }
  }

  lemma PlainIsSafe(u: string, all: seq<string>)
    requires Plain(u)
    ensures Safe(u, all)
  {
    assert u + "" == u;
    forall m | m in all ensures !(Hole(m) <= "") {
    }
    assert Safe("", all);
    SafePlain(u, "", all);
  }

  predicate Unquoted(u: string) {
    forall k | 0 <= k < |u| :: u[k] != '"'
  }

  lemma NoHoleUnquoted(u: string, names: seq<string>)
    requires Unquoted(u)
    ensures FindHole(u, names) == None
  {
    var i := FindHole(u, names);
    if i.Some? {
      HoleAt(names[i.value], u);
    }
  }

  /** Without a quote, colons do no harm. */
  lemma {:induction false} UnquotedIsSafe(u: string, names: seq<string>, raws: seq<string>, all: seq<string>)
    requires Unquoted(u) && |names| == |raws|
    ensures Safe(u, all) && Expand(u, names, raws) == u
  {
    NoHoleUnquoted(u, all);
    NoHoleUnquoted(u, names);
    if u != "" {
      NoHoleUnquoted(u[1..], all);
      UnquotedIsSafe(u[1..], names, raws, all);
    }
  }

  lemma NamePrefix(m: string, n: string, t: string)
    requires IsName(m) && IsName(n) && n <= m + ("\"" + t)
    ensures |n| <= |m| && n == m[..|n|]
  {
    assert (m + ("\"" + t))[|m|] == '"';
  }

  /** No string starts with two placeholders. */
  lemma HoleUnique(m: string, n: string, t: string)
    requires IsName(m) && IsName(n) && Hole(n) <= Hole(m) + t
    ensures n == m
  {
    HoleAt(n, Hole(m) + t);
    assert (Hole(m) + t)[2..] == m + ("\"" + t);
    NamePrefix(m, n, t);
    assert (n + "\"")[|n|] == (m + ("\"" + t))[|n|];
  }

  lemma SafeAtHole(m: string, t: string, all: seq<string>)
    requires m in all && AmongNames(all, all) && forall n | n in all :: !Completes(t, n, all)
    ensures SafeHere(Hole(m) + t, all)
  {
    var s := Hole(m) + t;
    HoleSplit(m, t);
    NoHoleWithoutColon(s[1..], all);
    assert s[|Hole(m)|..] == t;
    forall n, k | n in all && k in all && Hole(n) <= s ensures !Completes(s[|Hole(n)|..], k, all) {
      HoleUnique(m, n, t);
    }
    assert s[2..] == m + ("\"" + t);
    forall n | n in all && n <= s[2..] ensures !StartsWithHole(s[2..][|n|..], all) {
      NamePrefix(m, n, t);
      assert (m + ("\"" + t))[|n|..][0] == (m + ("\"" + t))[|n|];
      NoHoleWithoutColon(s[2..][|n|..], all);
    }
  }

  lemma SafeHole(m: string, t: string, all: seq<string>)
    requires m in all && AmongNames(all, all) && Safe(t, all) && forall n | n in all :: !Completes(t, n, all)
    ensures Safe(Hole(m) + t, all)
  {
    HoleSplit(m, t);
    SafeAtHole(m, t, all);
    SafePlain(Inner(m), t, all);
    assert (Hole(m) + t)[1..] == Inner(m) + t;
  }

  lemma ExpandKnown(j: nat, t: string, all: seq<string>, raws: seq<string>)
    requires j < |all| == |raws| && AmongNames(all, all) && forall i | 0 <= i < |all| && all[i] == all[j] :: i == j
    ensures Expand(Hole(all[j]) + t, all, raws) == QuoteIdent(raws[j]) + Expand(t, all, raws)
  {
    var s := Hole(all[j]) + t;
    var i := FindHole(s, all);
    assert all[j] in all && Hole(all[j]) <= s;
    HoleUnique(all[j], all[i.value], t);
    assert s[|Hole(all[j])|..] == t;
  }

  lemma ExpandPlainText(u: string, names: seq<string>, raws: seq<string>)
    requires |names| == |raws| && Plain(u)
    ensures Expand(u, names, raws) == u
  {
    assert u + "" == u;
    ExpandPlain(u, "", names, raws);
  }

  /** A reference to the object `name` of the schema `top`, between other text of the line. */
  function Reference(before: string, top: string, name: string, after: string): string {
    before + (Hole(top) + ("." + (Hole(name) + after)))
  }

  lemma NotDot(n: string, t: string)
    requires IsName(n) && n <= "." + t && t != "" && t[0] == ':'
    ensures n <= "."
  {
    assert ("." + t)[1] == ':';
    assert n[0] == ("." + t)[0];
  }

  lemma ReferenceIsSafe(before: string, top: string, name: string, after: string, all: seq<string>)
    requires AmongNames(all, all) && top in all && name in all
    requires Plain(before) && Plain(after) && forall n | n in all :: !(n <= after) && !(n <= ".")
    ensures Safe(Reference(before, top, name, after), all)
  {
    PlainIsSafe(after, all);
    SafeHole(name, after, all);
    SafePlain(".", Hole(name) + after, all);
    forall n | n in all ensures !(n <= "." + (Hole(name) + after)) {
      if n <= "." + (Hole(name) + after) {
        NotDot(n, Hole(name) + after);
      }
    }
    SafeHole(top, "." + (Hole(name) + after), all);
    SafePlain(before, Hole(top) + ("." + (Hole(name) + after)), all);
  }

  lemma ReferenceExpansion(before: string, i: nat, j: nat, after: string, all: seq<string>, raws: seq<string>)
    requires i < |all| == |raws| && j < |all| && AmongNames(all, all) && Plain(before) && Plain(after)
    requires forall k, l | 0 <= k < |all| && 0 <= l < |all| && all[k] == all[l] :: k == l
    ensures Expand(Reference(before, all[i], all[j], after), all, raws)
         == before + (QuoteIdent(raws[i]) + ("." + (QuoteIdent(raws[j]) + after)))
  {
    var tail := "." + (Hole(all[j]) + after);
    ExpandPlain(before, Hole(all[i]) + tail, all, raws);
    ExpandKnown(i, tail, all, raws);
    ExpandPlain(".", Hole(all[j]) + after, all, raws);
    ExpandKnown(j, after, all, raws);
    ExpandPlainText(after, all, raws);
  }

  // ----- The five replacements

  const NAMES: seq<string> := ["schema", "state", "queue", "worker", "result"]

  function Raws(schema: string, prefix: string): seq<string> {
    [schema, prefix + "state", prefix + "queue", prefix + "worker", prefix + "result"]
  }

  /** One line of the template, as the code expands it. */
  function Chained(line: string, schema: string, prefix: string): string {
    var line1 := Replace(line, Hole("schema"), QuoteIdent(schema));
    var line2 := Replace(line1, Hole("state"), QuoteIdent(prefix + "state"));
    var line3 := Replace(line2, Hole("queue"), QuoteIdent(prefix + "queue"));
    var line4 := Replace(line3, Hole("worker"), QuoteIdent(prefix + "worker"));
    Replace(line4, Hole("result"), QuoteIdent(prefix + "result"))
  }

  lemma NamesAreNames()
    ensures AmongNames(NAMES, NAMES) && |NAMES| == 5
    ensures forall k, l | 0 <= k < 5 && 0 <= l < 5 && NAMES[k] == NAMES[l] :: k == l
    ensures forall n | n in NAMES :: !(n <= ".")
    ensures IsName("schema") && IsName("state") && IsName("queue") && IsName("worker") && IsName("result")
    ensures "schema" in NAMES && "state" in NAMES && "queue" in NAMES && "worker" in NAMES && "result" in NAMES
  {
    assert NAMES[0] == "schema" && NAMES[1] == "state" && NAMES[2] == "queue" && NAMES[3] == "worker" && NAMES[4] == "result";
  }

  lemma {:induction false} ExpandNothing(s: string)
    ensures Expand(s, [], []) == s
  {
    if s != "" {
      ExpandNothing(s[1..]);
    }
  }

  /** Replacements one after the other, in the order of the names. */
  function ReplaceAll(line: string, names: seq<string>, raws: seq<string>): string
    requires |names| == |raws|
  {
    if names == [] then line
    else
      var n := |names| - 1;
      Replace(ReplaceAll(line, names[..n], raws[..n]), Hole(names[n]), QuoteIdent(raws[n]))
  }

  lemma ReplaceAllSnoc(line: string, names: seq<string>, raws: seq<string>, name: string, raw: string)
    requires |names| == |raws|
    ensures ReplaceAll(line, names + [name], raws + [raw]) == Replace(ReplaceAll(line, names, raws), Hole(name), QuoteIdent(raw))
  {
    assert (names + [name])[..|names|] == names && (raws + [raw])[..|raws|] == raws;
  }

  lemma {:induction false} ReplaceAllExpands(line: string, names: seq<string>, raws: seq<string>, all: seq<string>)
    requires |names| == |raws| && AmongNames(names, all) && Safe(line, all)
    ensures ReplaceAll(line, names, raws) == Expand(line, names, raws)
  {
    if names == [] {
      ExpandNothing(line);
    } else {
      var n := |names| - 1;
      ReplaceAllExpands(line, names[..n], raws[..n], all);
      ReplaceExpands(line, names[..n], raws[..n], names[n], raws[n], all);
      assert names[..n] + [names[n]] == names && raws[..n] + [raws[n]] == raws;
    }
  }

  lemma ChainedIsReplaceAll(line: string, schema: string, prefix: string)
    ensures Chained(line, schema, prefix) == ReplaceAll(line, NAMES, Raws(schema, prefix))
  {
    var n1, r1 := ["schema"], [schema];
    var n2, r2 := n1 + ["state"], r1 + [prefix + "state"];
    var n3, r3 := n2 + ["queue"], r2 + [prefix + "queue"];
    var n4, r4 := n3 + ["worker"], r3 + [prefix + "worker"];
    ReplaceAllSnoc(line, [], [], "schema", schema);
    assert [] + ["schema"] == n1 && [] + [schema] == r1;
    ReplaceAllSnoc(line, n1, r1, "state", prefix + "state");
    ReplaceAllSnoc(line, n2, r2, "queue", prefix + "queue");
    ReplaceAllSnoc(line, n3, r3, "worker", prefix + "worker");
    ReplaceAllSnoc(line, n4, r4, "result", prefix + "result");
    assert n4 + ["result"] == NAMES && r4 + [prefix + "result"] == Raws(schema, prefix);
  }

  /** The chained replacements are capture-free: for every schema and prefix, and every line whose
      placeholders are safely surrounded, they equal the simultaneous substitution. */
  lemma ChainedIsSimultaneous(line: string, schema: string, prefix: string)
    requires Safe(line, NAMES)
    ensures Chained(line, schema, prefix) == Expand(line, NAMES, Raws(schema, prefix))
  {
    NamesAreNames();
    ChainedIsReplaceAll(line, schema, prefix);
    ReplaceAllExpands(line, NAMES, Raws(schema, prefix), NAMES);
  }

  lemma Reassociate(a: string, b: string, c: string)
    ensures a + ("." + (b + c)) == a + "." + b + c
  {
  }

  lemma ReferenceAt(before: string, j: nat, after: string, schema: string, prefix: string)
    requires 1 <= j < 5 && Plain(before) && Plain(after) && forall n | n in NAMES :: !(n <= after)
    ensures Chained(Reference(before, "schema", NAMES[j], after), schema, prefix)
         == before + (QuoteIdent(schema) + "." + QuoteIdent(prefix + NAMES[j]) + after)
  {
    NamesAreNames();
    var raws := Raws(schema, prefix);
    var line := Reference(before, NAMES[0], NAMES[j], after);
    ReferenceIsSafe(before, NAMES[0], NAMES[j], after, NAMES);
    ChainedIsSimultaneous(line, schema, prefix);
    ReferenceExpansion(before, 0, j, after, NAMES, raws);
    Reassociate(QuoteIdent(schema), QuoteIdent(prefix + NAMES[j]), after);
  }

  lemma ReferenceText(before: string, name: string, after: string)
    ensures before + ":\"schema\".:\"" + name + "\"" + after == Reference(before, "schema", name, after)
  {
    assert ":\"schema\".:\"" == Hole("schema") + "." + ":\"";
  }

  lemma TableName(name: string) returns (j: nat)
    requires name == "state" || name == "queue" || name == "worker" || name == "result"
    ensures 1 <= j < 5 && NAMES[j] == name
  {
    j := if name == "state" then 1 else if name == "queue" then 2 else if name == "worker" then 3 else 4;
  }

  /** Every reference of the template names, once expanded, exactly the object `prefix + name` in
      `schema`, whatever quotes, colons or placeholders the two strings contain. */
  lemma ReferenceExpands(before: string, name: string, after: string, schema: string, prefix: string)
    requires name == "state" || name == "queue" || name == "worker" || name == "result"
    requires Plain(before) && Plain(after) && forall n | n in NAMES :: !(n <= after)
    requires after == "" || after[0] != '"'
    ensures Chained(before + ":\"schema\".:\"" + name + "\"" + after, schema, prefix)
         == before + (QuoteIdent(schema) + "." + QuoteIdent(prefix + name) + after)
    ensures LexQualified(QuoteIdent(schema) + "." + QuoteIdent(prefix + name) + after) == Some((schema, prefix + name, after))
  {
    var j := TableName(name);
    ReferenceText(before, name, after);
    ReferenceAt(before, j, after, schema, prefix);
    LexQualifiedQuoted(schema, prefix + name, after);
  }

  /** The line that only names the schema. */
  lemma SchemaLineExpands(before: string, after: string, schema: string, prefix: string)
    requires Plain(before) && Plain(after) && forall n | n in NAMES :: !(n <= after)
    ensures Chained(before + (":\"schema\"" + after), schema, prefix) == before + (QuoteIdent(schema) + after)
  {
    assert Hole("schema") == ":\"schema\"";
    NamesAreNames();
    var raws := Raws(schema, prefix);
    PlainIsSafe(after, NAMES);
    SafeHole(NAMES[0], after, NAMES);
    SafePlain(before, Hole(NAMES[0]) + after, NAMES);
    ChainedIsSimultaneous(before + (Hole(NAMES[0]) + after), schema, prefix);
    ExpandPlain(before, Hole(NAMES[0]) + after, NAMES, raws);
    ExpandKnown(0, after, NAMES, raws);
    ExpandPlainText(after, NAMES, raws);
  }

  /** A line without quotes, or without colons, stays as it is: comments and the lines between references. */
  lemma OtherLinesKept(line: string, schema: string, prefix: string)
    requires Unquoted(line) || Plain(line)
    ensures Safe(line, NAMES) && Chained(line, schema, prefix) == line
  {
    if Unquoted(line) {
      UnquotedIsSafe(line, NAMES, Raws(schema, prefix), NAMES);
    } else {
      PlainIsSafe(line, NAMES);
      ExpandPlainText(line, NAMES, Raws(schema, prefix));
    }
    ChainedIsSimultaneous(line, schema, prefix);
  }

  lemma ReplaceAfterColon(m: string, r: string)
    requires IsName(m)
    ensures Replace([':'] + Hole(m), Hole(m), r) == [':'] + r
    ensures Replace(Hole(m), Hole(m), r) == r
  {
    if Hole(m) <= [':'] + Hole(m) {
      HoleAt(m, [':'] + Hole(m));
    }
    ReplaceSkips(':', Hole(m), Hole(m), r);
    ReplaceHere(Hole(m), "", r);
    assert Hole(m) + "" == Hole(m) && r + "" == r;
  }

  /** A line with a colon before the placeholder `m`, when the value of `m` is the name of another one. */
  lemma CaptureExpansion(j: nat, all: seq<string>, raws: seq<string>)
    requires j < |all| == |raws| && AmongNames(all, all) && forall i | 0 <= i < |all| && all[i] == all[j] :: i == j
    ensures Expand([':'] + Hole(all[j]), all, raws) == [':'] + QuoteIdent(raws[j])
  {
    var line := [':'] + Hole(all[j]);
    assert FindHole(line, all).None? by {
      var i := FindHole(line, all);
      if i.Some? {
        HoleAt(all[i.value], line);
      }
    }
    ExpandChar(':', Hole(all[j]), all, raws);
    ExpandKnown(j, "", all, raws);
    assert Hole(all[j]) + "" == Hole(all[j]) && QuoteIdent(raws[j]) + "" == QuoteIdent(raws[j]);
  }

  lemma {:induction false} ReplaceAbsent(s: string, name: string, r: string)
    requires Plain(s)
    ensures Replace(s, Hole(name), r) == s
  {
    if s != "" {
      SkipPlain(s[0], s[1..], name, r);
      assert [s[0]] + s[1..] == s;
      ReplaceAbsent(s[1..], name, r);
    }
  }

  lemma CaptureSteps(a: string, b: string, c: string, d: string, e: string, q: string, rc: string, rd: string, re: string)
    requires IsName(a) && IsName(b) && q == Inner(b)
    ensures Replace(Replace(Replace(Replace(Replace([':'] + Hole(a), Hole(a), q), Hole(b), q), Hole(c), rc), Hole(d), rd), Hole(e), re)
         == q
  {
    ReplaceAfterColon(a, q);
    assert [':'] + q == Hole(b);
    ReplaceAfterColon(b, q);
    ReplaceAbsent(q, c, rc);
    ReplaceAbsent(q, d, rd);
    ReplaceAbsent(q, e, re);
  }

  lemma {:induction false} PlainQuote(raw: string)
    requires forall k | 0 <= k < |raw| :: raw[k] != '"'
    ensures Doubled(raw) == raw
  {
    if raw != "" {
      PlainQuote(raw[1..]);
      DoubledCons(raw);
    }
  }

  lemma CaptureChain()
    ensures Chained([':'] + Hole("schema"), "state", "") == QuoteIdent("state")
  {
    NamesAreNames();
    PlainQuote("state");
    assert "" + "state" == "state";
    CaptureSteps("schema", "state", "queue", "worker", "result", QuoteIdent("state"),
                 QuoteIdent("" + "queue"), QuoteIdent("" + "worker"), QuoteIdent("" + "result"));
  }

  /** Without the condition the two differ: a colon before the placeholder captures a schema called `state`. */
  lemma CaptureExample()
    ensures Chained([':'] + Hole("schema"), "state", "") != Expand([':'] + Hole("schema"), NAMES, Raws("state", ""))
  {
    NamesAreNames();
    CaptureChain();
    CaptureExpansion(0, NAMES, Raws("state", ""));
  }

  // ----- The generator

  /** `at` lists, from top to bottom, exactly the lines that do not start with a backslash. */
  ghost predicate ListsKept(lines: seq<string>, at: seq<nat>) {
    && (forall i, j | 0 <= i < j < |at| :: at[i] < at[j])
    && forall k: nat :: k in at <==> k < |lines| && (lines[k] == "" || lines[k][0] != '\\')
  }

  /** Lines of psql commands are dropped; every other line is expanded, once and in order. */
  method ProcessPsqlLines(lines: seq<string>, schema: string, prefix: string) returns (out: seq<string>, ghost at: seq<nat>)
    ensures ListsKept(lines, at) && |out| == |at|
    ensures forall i | 0 <= i < |out| && at[i] < |lines| ::
              && out[i] == Chained(lines[at[i]], schema, prefix)
              && (Safe(lines[at[i]], NAMES) ==> out[i] == Expand(lines[at[i]], NAMES, Raws(schema, prefix)))
  {
    out, at := [], [];
    for k := 0 to |lines|
      invariant |out| == |at| && ListsKept(lines[..k], at)
      invariant forall i | 0 <= i < |at| :: at[i] < k && out[i] == Chained(lines[at[i]], schema, prefix)
    {
      var line := lines[k];
      if line != "" && line[0] == '\\' {
        continue;
      }
      out, at := out + [Chained(line, schema, prefix)], at + [k];
    }
    assert lines[..|lines|] == lines;
    forall i | 0 <= i < |out| && Safe(lines[at[i]], NAMES)
      ensures out[i] == Expand(lines[at[i]], NAMES, Raws(schema, prefix))
    {
      ChainedIsSimultaneous(lines[at[i]], schema, prefix);
    }
  }
}
