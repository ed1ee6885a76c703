/** The rule tables of the configuration: parsers, and the round trips of their canonical texts. */
module RuleTables {
  import opened Schema
  import opened RuleText

  datatype Rule<V> = Rule(name: string, value: V)

  datatype VersionRange = VersionRange(min: int, max: int)

  /** A table filled entry by entry: a malformed entry is skipped, a later rule overrides an earlier one. */
  function Tabulate<V>(entries: seq<string>, parse: string -> Option<Rule<V>>): map<string, V> {
    if entries == [] then map[] else
    var m := Tabulate(entries[..|entries| - 1], parse);
    match parse(entries[|entries| - 1])
    case None => m
    case Some(r) => m[r.name := r.value]
  }

  lemma TabulateNext<V>(entries: seq<string>, i: nat, parse: string -> Option<Rule<V>>)
    requires i < |entries|
    ensures var m := Tabulate(entries[..i], parse);
            Tabulate(entries[..i + 1], parse) == match parse(entries[i]) { case None => m case Some(r) => m[r.name := r.value] }
  {
    assert entries[..i + 1][..i] == entries[..i];
  }

  function MapOf<V>(rules: seq<Rule<V>>): map<string, V> {
    if rules == [] then map[] else MapOf(rules[..|rules| - 1])[rules[|rules| - 1].name := rules[|rules| - 1].value]
  }

  /** One more entry only adds what it parses to. */
  lemma {:induction false} TabulateConcat<V>(a: seq<string>, b: seq<string>, parse: string -> Option<Rule<V>>)
    ensures Tabulate(a + b, parse) == Tabulate(a, parse) + Tabulate(b, parse)
    decreases |b|
  {
    if b == [] {
      assert a + b == a;
    } else {
      assert (a + b)[..|a + b| - 1] == a + b[..|b| - 1];
      TabulateConcat(a, b[..|b| - 1], parse);
    }
  }

  /** A malformed entry changes nothing, wherever it stands. */
  lemma MalformedIgnored<V>(a: seq<string>, bad: string, b: seq<string>, parse: string -> Option<Rule<V>>)
    requires parse(bad).None?
    ensures Tabulate(a + [bad] + b, parse) == Tabulate(a + b, parse)
  {
    TabulateConcat(a + [bad], b, parse);
    TabulateConcat(a, [bad], parse);
    TabulateConcat(a, b, parse);
    assert [bad][..0] == [];
  }

  /** The last rule for a name wins. */
  lemma LaterOverrides<V>(a: seq<string>, last: string, b: seq<string>, parse: string -> Option<Rule<V>>, name: string)
    requires parse(last).Some? && parse(last).value.name == name
    requires name !in Tabulate(b, parse)
    ensures var m := Tabulate(a + [last] + b, parse); name in m && m[name] == parse(last).value.value
  {
    TabulateConcat(a + [last], b, parse);
    assert (a + [last])[..|a|] == a;
  }

  lemma {:induction false} TabulateRules<V>(entries: seq<string>, rules: seq<Rule<V>>, parse: string -> Option<Rule<V>>)
    requires |entries| == |rules| && forall i :: 0 <= i < |rules| ==> parse(entries[i]) == Some(rules[i])
    ensures Tabulate(entries, parse) == MapOf(rules)
  {
    if rules != [] {
      TabulateRules(entries[..|rules| - 1], rules[..|rules| - 1], parse);
    }
  }

  /** The two bare sides of an entry come back from its text. */
  lemma PairText(a: string, sep: char, b: string)
    requires Trimmed(a) && sep !in a && !IsSpace(sep) && b != [] && Trimmed(b)
    ensures var e := a + [sep] + b;
            e != [] && Trimmed(e) && Trim(e) == e && Cut(e, sep) == Some((a, b)) && Trim(a) == a && Trim(b) == b
  {
    var e := a + [sep] + b;
    assert e[0] == (if a == [] then sep else a[0]) && e[|e| - 1] == b[|b| - 1];
    TrimTrimmed(e);
    CutFirst(a, sep, b);
    TrimTrimmed(a);
    TrimTrimmed(b);
  }

  // ---------- name=number tables ----------

  /** One trimmed `name=number` entry. */
  function IntRule(entry: string): Option<Rule<int>> {
    match Cut(Trim(entry), '=')
    case None => None
    case Some((k, v)) =>
      if Trim(k) == [] || Atoi(Trim(v)).None? then None else Some(Rule(Trim(k), Atoi(Trim(v)).value))
  }

  method ParseIntMap(setting: string) returns (out: map<string, int>)
    ensures out == Tabulate(Split(Trim(setting), ','), IntRule)
  {
    var raw := Trim(setting);
    out := map[];
    if raw == "" {
      assert Split(raw, ',')[..0] == [];
      return;
    }
    var pairs := Split(raw, ',');
    var i := 0;
    while i < |pairs|
      invariant 0 <= i <= |pairs|
      invariant out == Tabulate(pairs[..i], IntRule)
    {
      TabulateNext(pairs, i, IntRule);
      var parts := Cut(Trim(pairs[i]), '=');
      if parts.Some? {
        var k, v := Trim(parts.value.0), Trim(parts.value.1);
        var n := Atoi(v);
        if k != "" && n.Some? { out := out[k := n.value]; }
      }
      i := i + 1;
    }
    assert pairs[..|pairs|] == pairs;
  }

  function IntEntry(r: Rule<int>): string {
    r.name + ['='] + Itoa(r.value)
  }

  predicate IntRuleOk(r: Rule<int>) {
    r.name != [] && Trimmed(r.name) && '=' !in r.name && ',' !in r.name && MIN_INT <= r.value <= MAX_INT
  }

  lemma IntEntryParses(r: Rule<int>)
    requires IntRuleOk(r)
    ensures IntRule(IntEntry(r)) == Some(r) && Item(IntEntry(r), ',')
  {
    ItoaText(r.value);
    AtoiItoa(r.value);
    PairText(r.name, '=', Itoa(r.value));
  }

  function Texts<V>(rules: seq<Rule<V>>, show: Rule<V> -> string): seq<string> {
    seq(|rules|, i requires 0 <= i < |rules| => show(rules[i]))
  }

  /** A text joined from entries without the separator, each bare, comes back entry by entry. */
  lemma EntriesBack(entries: seq<string>, sep: char)
    requires forall i :: 0 <= i < |entries| ==> Item(entries[i], sep)
    ensures entries != [] ==> Split(Trim(Join(entries, sep)), sep) == entries
    ensures entries == [] ==> Split(Trim(Join(entries, sep)), sep) == [[]]
  {
    if entries != [] {
      JoinEnds(entries, sep);
      TrimTrimmed(Join(entries, sep));
      SplitJoin(entries, sep);
    }
  }

  /** Tabulating the canonical text of some rules gives the table of those rules. */
  lemma TableBack<V>(rules: seq<Rule<V>>, show: Rule<V> -> string, parse: string -> Option<Rule<V>>, sep: char)
    requires forall i :: 0 <= i < |rules| ==> parse(show(rules[i])) == Some(rules[i]) && Item(show(rules[i]), sep)
    requires parse([]).None?
    ensures Tabulate(Split(Trim(Join(Texts(rules, show), sep)), sep), parse) == MapOf(rules)
  {
    var entries := Texts(rules, show);
    EntriesBack(entries, sep);
    if rules == [] {
      var none: seq<string> := [[]];
      assert none[..0] == [];
    } else {
      TabulateRules(entries, rules, parse);
    }
  }

  /** Parsing the canonical text of any name=number table gives the table back. */
  lemma IntTableRoundTrip(rules: seq<Rule<int>>)
    requires forall i :: 0 <= i < |rules| ==> IntRuleOk(rules[i])
    ensures Tabulate(Split(Trim(Join(Texts(rules, IntEntry), ',')), ','), IntRule) == MapOf(rules)
  {
    forall i | 0 <= i < |rules| ensures IntRule(IntEntry(rules[i])) == Some(rules[i]) && Item(IntEntry(rules[i]), ',') {
      IntEntryParses(rules[i]);
    }
    TableBack(rules, IntEntry, IntRule, ',');
  }

  // ---------- version rules ----------

  /** The bounds `min-max` of a version rule. */
  function RangeOf(text: string): Option<VersionRange> {
    match Cut(Trim(text), '-')
    case None => None
    case Some((a, b)) =>
      var lo, hi := Atoi(Trim(a)), Atoi(Trim(b));
      if lo.None? || hi.None? || lo.value <= 0 || hi.value < lo.value then None else Some(VersionRange(lo.value, hi.value))
  }

  /** One `type:min-max` entry; an empty type name is accepted. */
  function VersionRule(entry: string): Option<Rule<VersionRange>> {
    match Cut(Trim(entry), ':')
    case None => None
    case Some((evt, rng)) => if RangeOf(rng).None? then None else Some(Rule(Trim(evt), RangeOf(rng).value))
  }

  predicate RangeOk(v: VersionRange) {
    1 <= v.min <= v.max
  }

  /** Every rule of a parsed table has 1 <= min <= max. */
  lemma {:induction false} VersionsInRange(entries: seq<string>)
    ensures forall k :: k in Tabulate(entries, VersionRule) ==> RangeOk(Tabulate(entries, VersionRule)[k])
  {
    if entries != [] { VersionsInRange(entries[..|entries| - 1]); }
  }

  method ParseSchemaVersionRules(setting: string) returns (out: map<string, VersionRange>)
    ensures out == Tabulate(Split(Trim(setting), ','), VersionRule)
    ensures forall k :: k in out ==> RangeOk(out[k])
  {
    var raw := Trim(setting);
    VersionsInRange(Split(raw, ','));
    out := map[];
    if raw == "" {
      assert Split(raw, ',')[..0] == [];
      return;
    }
    var entries := Split(raw, ',');
    var i := 0;
    while i < |entries|
      invariant 0 <= i <= |entries|
      invariant out == Tabulate(entries[..i], VersionRule)
    {
      TabulateNext(entries, i, VersionRule);
      var rule := ParseVersionEntry(entries[i]);
      if rule.Some? { out := out[rule.value.name := rule.value.value]; }
      i := i + 1;
    }
    assert entries[..|entries|] == entries;
  }

  method ParseVersionEntry(entry: string) returns (rule: Option<Rule<VersionRange>>)
    ensures rule == VersionRule(entry)
    ensures rule.Some? ==> RangeOk(rule.value.value)
  {
    var parts := Cut(Trim(entry), ':');
    if parts.None? { return None; }
    var bounds := Cut(Trim(parts.value.1), '-');
    if bounds.None? { return None; }
    var lo, hi := Atoi(Trim(bounds.value.0)), Atoi(Trim(bounds.value.1));
    if lo.None? || hi.None? || lo.value <= 0 || hi.value < lo.value { return None; }
    rule := Some(Rule(Trim(parts.value.0), VersionRange(lo.value, hi.value)));
  }

  function VersionEntry(r: Rule<VersionRange>): string {
    r.name + [':'] + (Itoa(r.value.min) + ['-'] + Itoa(r.value.max))
  }

  predicate VersionRuleOk(r: Rule<VersionRange>) {
    Trimmed(r.name) && ':' !in r.name && ',' !in r.name && RangeOk(r.value) && r.value.max <= MAX_INT
  }

  lemma RangeParses(v: VersionRange)
    requires RangeOk(v) && v.max <= MAX_INT
    ensures var t := Itoa(v.min) + ['-'] + Itoa(v.max); RangeOf(t) == Some(v) && t != [] && Trimmed(t) && ',' !in t
  {
    ItoaText(v.min);
    ItoaText(v.max);
    AtoiItoa(v.min);
    AtoiItoa(v.max);
    PairText(Itoa(v.min), '-', Itoa(v.max));
  }

  lemma VersionEntryParses(r: Rule<VersionRange>)
    requires VersionRuleOk(r)
    ensures VersionRule(VersionEntry(r)) == Some(r) && Item(VersionEntry(r), ',')
  {
    RangeParses(r.value);
    PairText(r.name, ':', Itoa(r.value.min) + ['-'] + Itoa(r.value.max));
  }

  /** Parsing the canonical text of any version table gives the table back. */
  lemma VersionTableRoundTrip(rules: seq<Rule<VersionRange>>)
    requires forall i :: 0 <= i < |rules| ==> VersionRuleOk(rules[i])
    ensures Tabulate(Split(Trim(Join(Texts(rules, VersionEntry), ',')), ','), VersionRule) == MapOf(rules)
  {
    forall i | 0 <= i < |rules| ensures VersionRule(VersionEntry(rules[i])) == Some(rules[i]) && Item(VersionEntry(rules[i]), ',') {
      VersionEntryParses(rules[i]);
    }
    TableBack(rules, VersionEntry, VersionRule, ',');
  }

  // ---------- lists and required fields ----------

  method SplitOr(setting: string, fallback: string) returns (out: seq<string>)
    ensures out == Kept(Split(if setting != "" then setting else fallback, ','))
    ensures forall i :: 0 <= i < |out| ==> out[i] != [] && Trimmed(out[i])
  {
    out := Fields(if setting != "" then setting else fallback, ',');
  }

  /** The loop shared by list settings and required fields. */
  method Fields(text: string, sep: char) returns (out: seq<string>)
    ensures out == Kept(Split(text, sep))
    ensures forall i :: 0 <= i < |out| ==> out[i] != [] && Trimmed(out[i])
  {
    var parts := Split(text, sep);
    out := [];
    var i := 0;
    while i < |parts|
      invariant 0 <= i <= |parts| && out == Kept(parts[..i])
      invariant forall j :: 0 <= j < |out| ==> out[j] != [] && Trimmed(out[j])
    {
      assert parts[..i + 1][..i] == parts[..i];
      var p := Trim(parts[i]);
      TrimIsTrimmed(parts[i]);
      if p != "" { out := out + [p]; }
      i := i + 1;
    }
    assert parts[..|parts|] == parts;
  }

  /** Reading back a joined list of non-empty, bare items gives the list. */
  lemma ListRoundTrip(items: seq<string>, sep: char)
    requires items != [] && forall i :: 0 <= i < |items| ==> Item(items[i], sep)
    ensures Join(items, sep) != [] && Kept(Split(Join(items, sep), sep)) == items
  {
    JoinEnds(items, sep);
    SplitJoin(items, sep);
    KeptAll(items);
  }

  /** One `type=field|field` entry; an entry without fields is malformed. */
  function FieldRule(entry: string): Option<Rule<seq<string>>> {
    match Cut(Trim(entry), '=')
    case None => None
    case Some((evt, fields)) =>
      if Trim(evt) == [] || Kept(Split(fields, '|')) == [] then None else Some(Rule(Trim(evt), Kept(Split(fields, '|'))))
  }

  /** Every rule of a parsed table has a name and at least one field. */
  lemma {:induction false} FieldsPresent(entries: seq<string>)
    ensures forall k :: k in Tabulate(entries, FieldRule) ==> k != [] && Tabulate(entries, FieldRule)[k] != []
  {
    if entries != [] { FieldsPresent(entries[..|entries| - 1]); }
  }

  method ParseFieldEntry(entry: string) returns (rule: Option<Rule<seq<string>>>)
    ensures rule == FieldRule(entry)
  {
    var parts := Cut(Trim(entry), '=');
    if parts.None? { return None; }
    var evt := Trim(parts.value.0);
    if evt == "" { return None; }
    var fields := Fields(parts.value.1, '|');
    rule := if fields == [] then None else Some(Rule(evt, fields));
  }

  method ParseRequiredFieldRules(setting: string) returns (out: map<string, seq<string>>)
    ensures out == Tabulate(Split(Trim(setting), ';'), FieldRule)
    ensures forall k :: k in out ==> k != [] && out[k] != []
  {
    var raw := Trim(setting);
    FieldsPresent(Split(raw, ';'));
    out := map[];
    if raw == "" {
      assert Split(raw, ';')[..0] == [];
      return;
    }
    var entries := Split(raw, ';');
    var i := 0;
    while i < |entries|
      invariant 0 <= i <= |entries|
      invariant out == Tabulate(entries[..i], FieldRule)
    {
      TabulateNext(entries, i, FieldRule);
      var rule := ParseFieldEntry(entries[i]);
      if rule.Some? { out := out[rule.value.name := rule.value.value]; }
      i := i + 1;
    }
    assert entries[..|entries|] == entries;
  }

  function FieldEntry(r: Rule<seq<string>>): string {
    r.name + ['='] + Join(r.value, '|')
  }

  predicate FieldRuleOk(r: Rule<seq<string>>) {
    && r.name != [] && Trimmed(r.name) && '=' !in r.name && ';' !in r.name
    && r.value != [] && (forall i :: 0 <= i < |r.value| ==> Item(r.value[i], '|') && ';' !in r.value[i])
  }

  lemma {:induction false} JoinFree(parts: seq<string>, sep: char, c: char)
    requires c != sep && forall i :: 0 <= i < |parts| ==> c !in parts[i]
    ensures c !in Join(parts, sep)
  {
    if |parts| > 1 { JoinFree(parts[1..], sep, c); }
  }

  lemma FieldEntryParses(r: Rule<seq<string>>)
    requires FieldRuleOk(r)
    ensures FieldRule(FieldEntry(r)) == Some(r) && Item(FieldEntry(r), ';')
  {
    JoinEnds(r.value, '|');
    JoinFree(r.value, '|', ';');
    PairText(r.name, '=', Join(r.value, '|'));
    ListRoundTrip(r.value, '|');
  }

  /** Parsing the canonical text of any required-field table gives the table back. */
  lemma FieldTableRoundTrip(rules: seq<Rule<seq<string>>>)
    requires forall i :: 0 <= i < |rules| ==> FieldRuleOk(rules[i])
    ensures Tabulate(Split(Trim(Join(Texts(rules, FieldEntry), ';')), ';'), FieldRule) == MapOf(rules)
  {
    forall i | 0 <= i < |rules| ensures FieldRule(FieldEntry(rules[i])) == Some(rules[i]) && Item(FieldEntry(rules[i]), ';') {
      FieldEntryParses(rules[i]);
    }
    TableBack(rules, FieldEntry, FieldRule, ';');
  }

  // ---------- which entries are rules ----------

  /** The entry is `name=number` with white space around it and around both sides. */
  ghost predicate IntForm(e: string, r: Rule<int>, text: string, k: string, v: string, number: string) {
    && Bare(e, text) && text == k + ['='] + v && '=' !in k
    && Bare(k, r.name) && r.name != [] && Bare(v, number) && Decimal(number, r.value)
  }

  /** An entry is read as a rule if and only if it has that form. */
  lemma IntRuleExact(e: string, r: Rule<int>)
    ensures IntRule(e) == Some(r) <==> exists text, k, v, number :: IntForm(e, r, text, k, v, number)
  {
    TrimExact(e, Trim(e));
    CutExact(Trim(e), '=');
    if IntRule(e) == Some(r) {
      var (k, v) := Cut(Trim(e), '=').value;
      TrimExact(k, r.name);
      TrimExact(v, Trim(v));
      AtoiExact(Trim(v), r.value);
      assert IntForm(e, r, Trim(e), k, v, Trim(v));
    }
    if text, k, v, number :| IntForm(e, r, text, k, v, number) {
      TrimExact(e, text);
      CutFirst(k, '=', v);
      TrimExact(k, r.name);
      TrimExact(v, number);
      AtoiExact(number, r.value);
    }
  }

  /** The text is `min-max` with 1 <= min <= max, white space allowed around everything. */
  ghost predicate RangeForm(e: string, v: VersionRange, text: string, a: string, b: string, lo: string, hi: string) {
    && Bare(e, text) && text == a + ['-'] + b && '-' !in a && 1 <= v.min <= v.max
    && Bare(a, lo) && Decimal(lo, v.min) && Bare(b, hi) && Decimal(hi, v.max)
  }

  lemma RangeExact(e: string, v: VersionRange)
    ensures RangeOf(e) == Some(v) <==> exists text, a, b, lo, hi :: RangeForm(e, v, text, a, b, lo, hi)
  {
    TrimExact(e, Trim(e));
    CutExact(Trim(e), '-');
    if RangeOf(e) == Some(v) {
      var (a, b) := Cut(Trim(e), '-').value;
      TrimExact(a, Trim(a));
      TrimExact(b, Trim(b));
      AtoiExact(Trim(a), v.min);
      AtoiExact(Trim(b), v.max);
      assert RangeForm(e, v, Trim(e), a, b, Trim(a), Trim(b));
    }
    if text, a, b, lo, hi :| RangeForm(e, v, text, a, b, lo, hi) {
      TrimExact(e, text);
      CutFirst(a, '-', b);
      TrimExact(a, lo);
      TrimExact(b, hi);
      AtoiExact(lo, v.min);
      AtoiExact(hi, v.max);
    }
  }

  /** The entry is `type:range`; the type may be empty. */
  ghost predicate VersionForm(e: string, r: Rule<VersionRange>, text: string, evt: string, rng: string) {
    Bare(e, text) && text == evt + [':'] + rng && ':' !in evt && Bare(evt, r.name) && RangeOf(rng) == Some(r.value)
  }

  lemma VersionRuleExact(e: string, r: Rule<VersionRange>)
    ensures VersionRule(e) == Some(r) <==> exists text, evt, rng :: VersionForm(e, r, text, evt, rng)
  {
    TrimExact(e, Trim(e));
    CutExact(Trim(e), ':');
    if VersionRule(e) == Some(r) {
      var (evt, rng) := Cut(Trim(e), ':').value;
      TrimExact(evt, r.name);
      assert VersionForm(e, r, Trim(e), evt, rng);
    }
    if text, evt, rng :| VersionForm(e, r, text, evt, rng) {
      TrimExact(e, text);
      CutFirst(evt, ':', rng);
      TrimExact(evt, r.name);
    }
  }

  /** The entry is `type=field|field`, with a type and at least one field. */
  ghost predicate FieldForm(e: string, r: Rule<seq<string>>, text: string, evt: string, fields: string, parts: seq<string>) {
    && Bare(e, text) && text == evt + ['='] + fields && '=' !in evt && Bare(evt, r.name) && r.name != []
    && parts != [] && Join(parts, '|') == fields && (forall i :: 0 <= i < |parts| ==> '|' !in parts[i])
    && Picks(parts, r.value) && r.value != []
  }

  lemma FieldRuleForm(e: string, r: Rule<seq<string>>) returns (text: string, evt: string, fields: string, parts: seq<string>)
    requires FieldRule(e) == Some(r)
    ensures FieldForm(e, r, text, evt, fields, parts)
  {
    text := Trim(e);
    TrimExact(e, text);
    CutExact(text, '=');
    evt, fields := Cut(text, '=').value.0, Cut(text, '=').value.1;
    TrimExact(evt, r.name);
    parts := Split(fields, '|');
    SplitExact(fields, '|');
    KeptExact(parts, r.value);
  }

  lemma FieldRuleExact(e: string, r: Rule<seq<string>>)
    ensures FieldRule(e) == Some(r) <==> exists text, evt, fields, parts :: FieldForm(e, r, text, evt, fields, parts)
  {
    if FieldRule(e) == Some(r) {
      var text, evt, fields, parts := FieldRuleForm(e, r);
    }
    if text, evt, fields, parts :| FieldForm(e, r, text, evt, fields, parts) {
      TrimExact(e, text);
      CutFirst(evt, '=', fields);
      TrimExact(evt, r.name);
      SplitJoin(parts, '|');
      KeptExact(parts, r.value);
    }
  }
}
