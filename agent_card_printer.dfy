/** The client-side "identity card" printer: renders whatever object the
    card resolver returned as a text block. A rule, title and rule; the
    well-known scalar members as `Name: value` lines; one section per
    structured member (capabilities, input modes, skills, extensions,
    endpoints, tags, metadata); a raw JSON view; and a closing rule.

    Every writer appends lines to a StringBuilder. Each has a pure
    specification giving the lines it appends (the arguments of its
    AppendLine calls), and the properties of the layout are proved about
    those. */
module AgentCardPrinter {
  import opened Wrappers
  import opened Text
  import opened Reflection
  import A2A

  // ---------- constants ----------

  /** `new string(c, n)`. */
  function Repeat(c: char, n: nat): (r: string)
    ensures |r| == n && forall i :: 0 <= i < n ==> r[i] == c
  {
    if n == 0 then "" else Repeat(c, n - 1) + [c]
  }

  /** The rule above and below the card: 70 box-drawing characters. */
  const Rule: string := Repeat('\U{2500}', 70)
  const Title: string := "\U{1F91D} A2A Agent \U{2013} Identity Card"
  const NullCardLine: string := "\U{26A0}\U{FE0F} AgentCard is null."
  /** The nested members of Capabilities printed one per line when present. */
  const CapabilityMembers: seq<string> := ["Streaming", "InputModalities", "OutputModalities", "Auth", "RateLimits"]

  // ---------- scalars ----------

  /** IsScalar: null, strings, booleans, numbers, characters, dates, Guids and Uris. */
  predicate IsScalar(v: Value)
    ensures IsScalar(v) ==> !IsEnumerable(v) && PublicProps(v) == [] && EnumItems(v) == []
    ensures !IsScalar(v) ==> ToString(v).Some?
  {
    v.Null? || v.Str? || v.Bool? || v.Int? || v.OtherScalar?
  }

  /** IsNullOrEmpty: null, a whitespace-only string, or a collection without items. */
  predicate IsNullOrEmpty(v: Value)
    ensures IsEnumerable(v) ==> (IsNullOrEmpty(v) <==> |EnumItems(v)| == 0)
  {
    match v
    case Null => true
    case Str(s) => AllWhiteSpace(s)
    case List(_, items) => |items| == 0
    case Dict(_, entries) => |entries| == 0
    case _ => false
  }

  lemma IsNullOrEmptyExactly(v: Value)
    ensures IsNullOrEmpty(v) <==>
              || v.Null?
              || (v.Str? && forall i :: 0 <= i < |v.s| ==> IsWhiteSpace(v.s[i]))
              || (IsEnumerable(v) && |EnumItems(v)| == 0)
  {
    if v.Str? {
      AllWhiteSpaceChars(v.s);
    }
  }

  /** FormatScalar: "(null)", "(empty)" for a blank string, the string
      itself, "true"/"false", otherwise the value's ToString(). */
  function FormatScalar(v: Value): (r: string)
    ensures v.Str? && !AllWhiteSpace(v.s) ==> r == v.s
    ensures !v.Null? && !v.Str? && !v.Bool? ==> r == ToString(v).value
    ensures v.Int? ==> r == IntToString(v.i)
  {
    match v
    case Null => "(null)"
    case Str(s) => if AllWhiteSpace(s) then "(empty)" else s
    case Bool(b) => if b then "true" else "false"
    case _ => ToString(v).GetOr("(null)")
  }

  /** No null, string or boolean is ever printed as blank text, and a string
      is printed as itself exactly when it is not blank. */
  lemma FormatScalarNeverBlank(v: Value)
    requires v.Null? || v.Str? || v.Bool?
    ensures !AllWhiteSpace(FormatScalar(v))
    ensures v.Null? ==> FormatScalar(v) == "(null)"
    ensures v.Bool? ==> FormatScalar(v) == if v.b then "true" else "false"
    ensures v.Str? ==> (FormatScalar(v) == v.s <==> !AllWhiteSpace(v.s))
    ensures v.Str? && AllWhiteSpace(v.s) ==> FormatScalar(v) == "(empty)"
  {
    assert !AllWhiteSpace("(empty)") by { assert !IsWhiteSpace('('); }
    assert !AllWhiteSpace("(null)") by { assert !IsWhiteSpace('('); }
    assert !AllWhiteSpace("true") by { assert !IsWhiteSpace('t'); }
    assert !AllWhiteSpace("false") by { assert !IsWhiteSpace('f'); }
  }

  // ---------- indentation and dumps ----------

  /** Each line of `text` (split at '\n') with `indent` in front, rejoined
      with the newline. */
  function PrefixLines(indent: string, text: string): string {
    var pieces := Split(text, '\n');
    Join(NewLine, seq(|pieces|, k requires 0 <= k < |pieces| => indent + pieces[k]))
  }

  /** The indented JSON of a value, or its dump when serialisation throws. */
  function JsonOrDump(v: Value, ser: Serializer): string {
    match ser.indented(v)
    case Some(json) => json
    case None => ReflectiveDump(v)
  }

  /** FormatAuto without an indent: "(null)", a scalar's FormatScalar, or
      the value's JSON or dump. */
  function FormatPlain(v: Value, ser: Serializer): string {
    if v.Null? then "(null)"
    else if IsScalar(v) then FormatScalar(v)
    else JsonOrDump(v, ser)
  }

  /** FormatAuto: as FormatPlain, except that a non-scalar with a non-empty
      indent starts on a new line with every line indented. */
  function FormatAuto(v: Value, ser: Serializer, indent: Option<string>): (r: string)
    ensures IsNullOrEmptyString(indent) || IsScalar(v) ==> r == FormatPlain(v, ser)
  {
    if v.Null? then "(null)"
    else if IsScalar(v) then FormatScalar(v)
    else if !IsNullOrEmptyString(indent) then NewLine + PrefixLines(indent.value, JsonOrDump(v, ser))
    else JsonOrDump(v, ser)
  }

  /** With an indent, the value's text starts with a newline, every line
      after it starts with the indent, and stripping the indent from each
      line and rejoining them gives the unindented text back. */
  lemma {:induction false} FormatAutoIndented(v: Value, ser: Serializer, indent: string)
    requires !IsScalar(v)
    requires indent != [] && '\n' !in indent
    ensures var r := FormatAuto(v, ser, Some(indent));
            && |r| >= 1 && r[0] == '\n'
            && var lines := Split(r[1..], '\n');
            && (forall k :: 0 <= k < |lines| ==> indent <= lines[k])
            && Join("\n", seq(|lines|, k requires 0 <= k < |lines| => lines[k][|indent|..]))
               == FormatAuto(v, ser, None)
  {
    var body := FormatAuto(v, ser, None);
    var pieces := Split(body, '\n');
    var prefixed := seq(|pieces|, k requires 0 <= k < |pieces| => indent + pieces[k]);
    var r := FormatAuto(v, ser, Some(indent));
    assert r == "\n" + Join("\n", prefixed);
    assert r[1..] == Join("\n", prefixed);
    SplitJoin(prefixed, '\n');
    var lines := Split(r[1..], '\n');
    assert lines == prefixed;
    var stripped := seq(|lines|, k requires 0 <= k < |lines| => lines[k][|indent|..]);
    assert stripped == pieces;
    JoinSplit(body, '\n');
  }

  /** Ordinal order of property names. */
  predicate SortedByName(ps: seq<Property>) {
    forall i, j :: 0 <= i < j < |ps| ==> StrLe(ps[i].name, ps[j].name)
  }

  function InsertByName(p: Property, sorted: seq<Property>): seq<Property> {
    if sorted == [] || StrLe(p.name, sorted[0].name) then [p] + sorted
    else [sorted[0]] + InsertByName(p, sorted[1..])
  }

  /** `OrderBy(p => p.Name)`: a stable sort by name. */
  function SortByName(ps: seq<Property>): seq<Property> {
    if ps == [] then [] else InsertByName(ps[0], SortByName(ps[1..]))
  }

  /** A name no later than every name of a sorted list can head it. */
  lemma ConsSorted(head: Property, t: seq<Property>)
    requires SortedByName(t)
    requires forall x :: x in t ==> StrLe(head.name, x.name)
    ensures SortedByName([head] + t)
  {
    var r := [head] + t;
    forall i, j | 0 <= i < j < |r| ensures StrLe(r[i].name, r[j].name) {
      assert r[j] == t[j - 1];
      if i == 0 {
        assert t[j - 1] in t;
      } else {
        assert r[i] == t[i - 1];
      }
    }
  }

  lemma {:induction false} InsertByNameCorrect(p: Property, sorted: seq<Property>)
    requires SortedByName(sorted)
    ensures SortedByName(InsertByName(p, sorted))
    ensures multiset(InsertByName(p, sorted)) == multiset(sorted) + multiset{p}
  {
    if sorted == [] || StrLe(p.name, sorted[0].name) {
      LowerBound(p.name, sorted);
      ConsSorted(p, sorted);
    } else {
      var head, rest := sorted[0], sorted[1..];
      SortedTail(sorted);
      InsertByNameCorrect(p, rest);
      var t := InsertByName(p, rest);
      StrLeTotal(p.name, head.name);
      LowerBound(head.name, rest);
      InsertedBound(head.name, p, rest, t);
      ConsSorted(head, t);
      assert sorted == [head] + rest;
    }
  }

  lemma SortedTail(sorted: seq<Property>)
    requires SortedByName(sorted) && sorted != []
    ensures SortedByName(sorted[1..])
  {
    var rest := sorted[1..];
    forall i, j | 0 <= i < j < |rest| ensures StrLe(rest[i].name, rest[j].name) {
      assert rest[i] == sorted[i + 1] && rest[j] == sorted[j + 1];
    }
  }

  /** A name no later than a sorted list's first name (or, for the list's
      tail, its first name itself) is no later than any of its names. */
  lemma LowerBound(a: string, sorted: seq<Property>)
    requires SortedByName(sorted)
    requires sorted != [] ==> StrLe(a, sorted[0].name)
    ensures forall x :: x in sorted ==> StrLe(a, x.name)
  {
    forall x | x in sorted ensures StrLe(a, x.name) {
      var j :| 0 <= j < |sorted| && sorted[j] == x;
      if j > 0 { StrLeTransitive(a, sorted[0].name, sorted[j].name); }
    }
  }

  lemma InsertedBound(a: string, p: Property, rest: seq<Property>, t: seq<Property>)
    requires multiset(t) == multiset(rest) + multiset{p}
    requires StrLe(a, p.name)
    requires forall x :: x in rest ==> StrLe(a, x.name)
    ensures forall x :: x in t ==> StrLe(a, x.name)
  {
    forall x | x in t ensures StrLe(a, x.name) {
      assert x in multiset(t);
      if x != p {
        assert x in multiset(rest);
      }
    }
  }

  /** The dump's order: sorted by name, and exactly the object's properties. */
  lemma {:induction false} SortByNameCorrect(ps: seq<Property>)
    ensures SortedByName(SortByName(ps))
    ensures multiset(SortByName(ps)) == multiset(ps)
  {
    if ps != [] {
      SortByNameCorrect(ps[1..]);
      InsertByNameCorrect(ps[0], SortByName(ps[1..]));
      assert ps == [ps[0]] + ps[1..];
      assert multiset(ps) == multiset(ps[1..]) + multiset{ps[0]};
    }
  }

  /** One `Name: value` entry of the dump; non-scalars show as "[object]". */
  function DumpEntry(p: Property): string {
    p.name + ": " + (if IsScalar(p.value) then FormatScalar(p.value) else "[object]")
  }

  /** ReflectiveDump: the public properties sorted by name, as
      "{ A: 1, B: [object] }". */
  function ReflectiveDump(obj: Value): (r: string)
    ensures |r| >= 4 && r[..2] == "{ " && r[|r| - 2..] == " }"
    ensures PublicProps(obj) == [] ==> r == "{  }"
  {
    var sorted := SortByName(PublicProps(obj));
    "{ " + Join(", ", seq(|sorted|, k requires 0 <= k < |sorted| => DumpEntry(sorted[k]))) + " }"
  }

  /** The dump's entries are the object's properties in name order, one
      entry per property. */
  lemma ReflectiveDumpShape(obj: Value)
    ensures var sorted := SortByName(PublicProps(obj));
            && SortedByName(sorted) && multiset(sorted) == multiset(PublicProps(obj))
            && ReflectiveDump(obj) == "{ " + Join(", ", seq(|sorted|, k requires 0 <= k < |sorted| => DumpEntry(sorted[k]))) + " }"
  {
    SortByNameCorrect(PublicProps(obj));
  }

  /** SerializeSafe: compact JSON, or the dump when serialisation throws. */
  function SerializeSafe(v: Value, ser: Serializer): (r: string)
    ensures ser.compact(v).Some? ==> r == ser.compact(v).value
    ensures ser.compact(v).None? ==> r == ReflectiveDump(v) && r[..2] == "{ "
  {
    match ser.compact(v)
    case Some(json) => json
    case None => ReflectiveDump(v)
  }

  /** A scalar as FormatScalar prints it, anything else as compact JSON or
      its dump. */
  function FormatScalarOrJson(v: Value, ser: Serializer): (r: string)
    ensures IsScalar(v) ==> r == FormatPlain(v, ser) && r == FormatAuto(v, ser, None)
    ensures !IsScalar(v) ==> r == SerializeSafe(v, ser)
  {
    if IsScalar(v) then FormatScalar(v) else SerializeSafe(v, ser)
  }

  // ---------- skills ----------

  /** `GetProp(obj, name)?.GetValue(obj)?.ToString()`. */
  function PropText(obj: Value, name: string): Option<string> {
    match GetProp(obj, name)
    case None => None
    case Some(v) => ToString(v)
  }

  /** The first of "Operations", "Functions", "Actions" the skill has. */
  function OpsProp(skill: Value): Option<Value> {
    var operations := GetProp(skill, "Operations");
    if operations.Some? then operations
    else
      var functions := GetProp(skill, "Functions");
      if functions.Some? then functions else GetProp(skill, "Actions")
  }

  /** An operation's display name: its Name, else its ToString(), else
      "(op)" for a null operation. */
  function OpName(op: Value): string {
    PropText(op, "Name").GetOr(ToString(op).GetOr("(op)"))
  }

  /** `Where(s => !string.IsNullOrWhiteSpace(s))`. */
  function NonBlank(names: seq<string>): (r: seq<string>)
    ensures forall k :: 0 <= k < |r| ==> !AllWhiteSpace(r[k]) && r[k] in names
    ensures |r| == 0 <==> forall k :: 0 <= k < |names| ==> AllWhiteSpace(names[k])
  {
    if names == [] then []
    else
      var rest := NonBlank(names[1..]);
      assert forall k :: 1 <= k < |names| ==> names[k] == names[1..][k - 1];
      if AllWhiteSpace(names[0]) then rest else [names[0]] + rest
  }

  /** NonBlank is a filter: it works name by name, keeping a name exactly
      when it is not blank, in the order of the input. */
  lemma {:induction false} NonBlankFilter(a: seq<string>, b: seq<string>)
    ensures NonBlank(a + b) == NonBlank(a) + NonBlank(b)
    ensures |a| == 1 ==> NonBlank(a) == if AllWhiteSpace(a[0]) then [] else a
  {
    if a != [] {
      assert (a + b)[1..] == a[1..] + b;
      NonBlankFilter(a[1..], b);
    } else {
      assert a + b == b;
    }
    if |a| == 1 {
      assert a[1..] == [];
    }
  }

  /** The " | Ops: a, b" suffix of a skill line, or "". */
  function OpsSnippetFrom(names: seq<string>): string {
    var shown := NonBlank(names);
    if |shown| > 0 then " | Ops: " + Join(", ", shown) else ""
  }

  function OpNames(skill: Value): seq<string> {
    match OpsProp(skill)
    case None => []
    case Some(ops) =>
      if IsEnumerable(ops) then
        var items := EnumItems(ops);
        seq(|items|, k requires 0 <= k < |items| => OpName(items[k]))
      else []
  }

  /** The head of a skill line: the non-blank ones of Name and Description
      joined by " — ", else the skill's ToString(). */
  function SkillHead(skill: Value): string
    requires !skill.Null?
  {
    var name := PropText(skill, "Name");
    var desc := PropText(skill, "Description");
    var parts := (if IsNullOrWhiteSpace(name) then [] else [name.value])
               + (if IsNullOrWhiteSpace(desc) then [] else [desc.value]);
    if |parts| > 0 then Join(" \U{2014} ", parts) else ToString(skill).value
  }

  /** FormatSkill, with a null operation named "(op)". */
  function FormatSkill(skill: Value): (r: string)
    ensures skill.Null? ==> r == "(null)"
    ensures !skill.Null? ==> |SkillHead(skill)| <= |r| && r[..|SkillHead(skill)|] == SkillHead(skill)
  {
    if skill.Null? then "(null)" else SkillHead(skill) + OpsSnippetFrom(OpNames(skill))
  }

  /** What a skill line shows: "(null)" for null; otherwise the head
      (Name " — " Description, whichever of them is not blank, or the
      skill's ToString() when both are), then " | Ops: " and the non-blank
      operation names joined by ", ", present exactly when there is one. */
  lemma FormatSkillShape(skill: Value)
    ensures skill.Null? ==> FormatSkill(skill) == "(null)"
    ensures !skill.Null? ==>
              var name := PropText(skill, "Name");
              var desc := PropText(skill, "Description");
              var ops := OpsSnippetFrom(OpNames(skill));
              && (!IsNullOrWhiteSpace(name) && !IsNullOrWhiteSpace(desc) ==>
                    FormatSkill(skill) == name.value + " \U{2014} " + desc.value + ops)
              && (!IsNullOrWhiteSpace(name) && IsNullOrWhiteSpace(desc) ==>
                    FormatSkill(skill) == name.value + ops)
              && (IsNullOrWhiteSpace(name) && !IsNullOrWhiteSpace(desc) ==>
                    FormatSkill(skill) == desc.value + ops)
              && (IsNullOrWhiteSpace(name) && IsNullOrWhiteSpace(desc) ==>
                    FormatSkill(skill) == ToString(skill).value + ops)
    ensures var shown := NonBlank(OpNames(skill));
            OpsSnippetFrom(OpNames(skill)) == if shown == [] then "" else " | Ops: " + Join(", ", shown)
    ensures (OpsSnippetFrom(OpNames(skill)) != "") <==>
              exists k :: 0 <= k < |OpNames(skill)| && !AllWhiteSpace(OpNames(skill)[k])
  {
    if !skill.Null? {
      var name := PropText(skill, "Name");
      var desc := PropText(skill, "Description");
      if !IsNullOrWhiteSpace(name) && !IsNullOrWhiteSpace(desc) {
        var parts := [name.value, desc.value];
        assert parts[1..] == [desc.value];
        assert Join(" \U{2014} ", parts) == name.value + " \U{2014} " + desc.value;
      }
    }
  }

  /** An operation list that is a dictionary names each operation by its
      KeyValuePair text, "[key, value]". */
  lemma DictionaryOpsNamed(skill: Value, k: nat)
    requires OpsProp(skill).Some? && OpsProp(skill).value.Dict?
    requires k < |OpsProp(skill).value.entries|
    ensures var e := OpsProp(skill).value.entries[k];
            && k < |OpNames(skill)|
            && OpNames(skill)[k] == ToString(Pair(e.key, e.value)).value
            && OpNames(skill)[k][0] == '['
  {
    var e := OpsProp(skill).value.entries[k];
    PairProps(e.key, e.value, "Name");
  }

  /** A null operation is listed as "(op)" rather than dropped or failing. */
  lemma NullOperationListed(skill: Value, ops: Value, k: nat)
    requires OpsProp(skill) == Some(ops) && IsEnumerable(ops)
    requires k < |EnumItems(ops)| && EnumItems(ops)[k].Null?
    ensures OpNames(skill)[k] == "(op)"
    ensures OpsSnippetFrom(OpNames(skill)) != ""
  {
    assert !AllWhiteSpace("(op)") by { assert !IsWhiteSpace('('); }
  }

  /** The operation selector as the source writes it: `GetProp(o, "Name")`
      dereferences `o`, so a null operation throws. */
  function OpNamesAsWritten(items: seq<Value>): (r: Result<seq<string>, A2A.Fault>)
    ensures r.Failure? <==> exists k :: 0 <= k < |items| && items[k].Null?
    ensures r.Failure? ==> r.error == A2A.NullReference
    ensures r.Success? ==> r.value == seq(|items|, k requires 0 <= k < |items| => OpName(items[k]))
  {
    if items == [] then Success([])
    else if items[0].Null? then Failure(A2A.NullReference)
    else
      var tail := OpNamesAsWritten(items[1..]);
      OpNamesAsWrittenStep(items, tail);
      match tail
      case Failure(e) => Failure(e)
      case Success(rest) => Success([OpName(items[0])] + rest)
  }

  /** How one non-null operation in front extends the selector's result. */
  lemma OpNamesAsWrittenStep(items: seq<Value>, tail: Result<seq<string>, A2A.Fault>)
    requires items != [] && !items[0].Null?
    requires tail.Failure? <==> exists k :: 0 <= k < |items[1..]| && items[1..][k].Null?
    requires tail.Success? ==> tail.value == seq(|items[1..]|, k requires 0 <= k < |items[1..]| => OpName(items[1..][k]))
    ensures tail.Failure? <==> exists k :: 0 <= k < |items| && items[k].Null?
    ensures tail.Success? ==> [OpName(items[0])] + tail.value == seq(|items|, k requires 0 <= k < |items| => OpName(items[k]))
  {
    NullOpShift(items);
    if tail.Success? {
      OpNameListCons(items);
    }
  }

  lemma NullOpShift(items: seq<Value>)
    requires items != [] && !items[0].Null?
    ensures (exists k :: 0 <= k < |items[1..]| && items[1..][k].Null?) <==> exists k :: 0 <= k < |items| && items[k].Null?
  {
    var rest := items[1..];
    if exists k :: 0 <= k < |items| && items[k].Null? {
      var k :| 0 <= k < |items| && items[k].Null?;
      assert rest[k - 1] == items[k];
    }
    if exists k :: 0 <= k < |rest| && rest[k].Null? {
      var k :| 0 <= k < |rest| && rest[k].Null?;
      assert items[k + 1] == rest[k];
    }
  }

  lemma OpNameListCons(items: seq<Value>)
    requires items != []
    ensures [OpName(items[0])] + seq(|items[1..]|, k requires 0 <= k < |items[1..]| => OpName(items[1..][k]))
         == seq(|items|, k requires 0 <= k < |items| => OpName(items[k]))
  {
    var rest := items[1..];
    var tailNames := seq(|rest|, k requires 0 <= k < |rest| => OpName(rest[k]));
    var all := seq(|items|, k requires 0 <= k < |items| => OpName(items[k]));
    forall k | 0 <= k < |items| ensures ([OpName(items[0])] + tailNames)[k] == all[k] {
      if k > 0 {
        assert rest[k - 1] == items[k];
      }
    }
  }

  /** The skill's operation list holds a null operation. */
  predicate HasNullOp(skill: Value) {
    && OpsProp(skill).Some? && IsEnumerable(OpsProp(skill).value)
    && exists k :: 0 <= k < |EnumItems(OpsProp(skill).value)| && EnumItems(OpsProp(skill).value)[k].Null?
  }

  /** FormatSkill as the source writes it: it throws a null reference
      exactly on a non-null skill with a null operation, and otherwise
      agrees with the corrected FormatSkill. */
  function FormatSkillAsWritten(skill: Value): (r: Result<string, A2A.Fault>)
    ensures r.Failure? <==> !skill.Null? && HasNullOp(skill)
    ensures r.Failure? ==> r.error == A2A.NullReference
    ensures r.Success? ==> r.value == FormatSkill(skill)
  {
    if skill.Null? then Success("(null)")
    else
      var names := match OpsProp(skill)
        case None => Success([])
        case Some(ops) => if IsEnumerable(ops) then OpNamesAsWritten(EnumItems(ops)) else Success([]);
      match names
      case Failure(e) => Failure(e)
      case Success(ns) => Success(SkillHead(skill) + OpsSnippetFrom(ns))
  }

  /** A skill named "deploy" whose one operation is null. */
  const NullOpSkill: Value :=
    Record("AgentSkill", [Property("Name", Str("deploy")), Property("Operations", List("List", [Null]))])

  lemma NullOpSkillParts()
    ensures OpsProp(NullOpSkill) == Some(List("List", [Null]))
    ensures PropText(NullOpSkill, "Name") == Some("deploy")
    ensures PropText(NullOpSkill, "Description") == None
  {
  }

  /** On that skill the source throws... */
  lemma NullOperationThrows()
    ensures FormatSkillAsWritten(NullOpSkill) == Failure(A2A.NullReference)
  {
    NullOpSkillParts();
    assert EnumItems(OpsProp(NullOpSkill).value)[0].Null?;
    assert HasNullOp(NullOpSkill);
  }

  /** ...where the corrected printer writes "deploy | Ops: (op)". */
  lemma NullOperationNamed()
    ensures FormatSkill(NullOpSkill) == "deploy" + " | Ops: (op)"
  {
    NullOpSkillHead();
    NullOpSkillSnippet();
    assert FormatSkill(NullOpSkill) == SkillHead(NullOpSkill) + OpsSnippetFrom(OpNames(NullOpSkill));
  }

  lemma NullOpSkillHead()
    ensures SkillHead(NullOpSkill) == "deploy"
  {
    NullOpSkillParts();
    assert !IsWhiteSpace('d');
    assert !IsNullOrWhiteSpace(Some("deploy"));
  }

  lemma NullOpSkillSnippet()
    ensures OpsSnippetFrom(OpNames(NullOpSkill)) == " | Ops: (op)"
  {
    NullOpSkillParts();
    assert OpNames(NullOpSkill) == ["(op)"];
    assert NonBlank(["(op)"]) == ["(op)"] by {
      assert !IsWhiteSpace('(');
    }
  }

  // ---------- the lines each writer appends ----------

  /** What a run of AppendLine calls adds to a StringBuilder. */
  function Emitted(lines: seq<string>): string {
    if lines == [] then "" else Emitted(lines[..|lines| - 1]) + lines[|lines| - 1] + NewLine
  }

  lemma {:induction false} EmittedAppend(a: seq<string>, b: seq<string>)
    ensures Emitted(a + b) == Emitted(a) + Emitted(b)
  {
    if b == [] {
      assert a + b == a;
    } else {
      assert (a + b)[..|a + b| - 1] == a + b[..|b| - 1];
      EmittedAppend(a, b[..|b| - 1]);
    }
  }

  lemma EmittedSnoc(lines: seq<string>, line: string)
    ensures Emitted(lines + [line]) == Emitted(lines) + line + NewLine
  {
    assert (lines + [line])[..|lines|] == lines;
  }

  lemma EmittedOne(line: string)
    ensures Emitted([line]) == line + NewLine
  {
    assert [line][..0] == [];
  }

  lemma {:induction false} JoinSnoc(sep: string, parts: seq<string>, x: string)
    requires |parts| >= 1
    ensures Join(sep, parts + [x]) == Join(sep, parts) + sep + x
  {
    if |parts| == 1 {
      assert (parts + [x])[1..] == [x];
    } else {
      JoinSnoc(sep, parts[1..], x);
      assert (parts + [x])[1..] == parts[1..] + [x];
    }
  }

  /** Every line is followed by a newline: the text is the lines joined by
      newlines, with an empty last piece. */
  lemma {:induction false} EmittedAsJoin(lines: seq<string>)
    ensures Emitted(lines) == Join("\n", lines + [""])
  {
    if lines != [] {
      var init, last := lines[..|lines| - 1], lines[|lines| - 1];
      EmittedAsJoin(init);
      assert lines == init + [last];
      assert lines + [""] == (init + [last]) + [""];
      JoinSnoc("\n", init + [last], "");
      if init == [] {
        assert init + [last] == [last];
      } else {
        JoinSnoc("\n", init, last);
        JoinSnoc("\n", init, "");
      }
    }
  }

  /** Lines free of '\n' come back out of the text one by one. */
  lemma EmittedSplits(lines: seq<string>)
    requires forall k :: 0 <= k < |lines| ==> '\n' !in lines[k]
    ensures Split(Emitted(lines), '\n') == lines + [""]
  {
    EmittedAsJoin(lines);
    SplitJoin(lines + [""], '\n');
  }

  function SectionHeaderLines(title: string): seq<string> {
    ["", "\U{2022} " + title + ":"]
  }

  /** WriteIfPresent: nothing when the member is absent, null, blank or an
      empty collection; otherwise one `Name: value` line. */
  function IfPresentLines(obj: Value, propName: string): (r: seq<string>)
    ensures r == [] <==> GetProp(obj, propName).None? || IsNullOrEmpty(GetProp(obj, propName).value)
    ensures r != [] ==> r == [propName + ": " + FormatScalar(GetProp(obj, propName).value)]
  {
    match GetProp(obj, propName)
    case None => []
    case Some(value) => if IsNullOrEmpty(value) then [] else [propName + ": " + FormatScalar(value)]
  }

  /** A preferred nested member that is present and neither null nor empty. */
  predicate MemberShown(value: Value, member: string) {
    GetProp(value, member).Some? && !IsNullOrEmpty(GetProp(value, member).value)
  }

  /** Item k of an enumerable nested member: `  Member[k]: value`. */
  function MemberItemLine(member: string, item: Value, ser: Serializer, k: nat): string {
    "  " + member + "[" + NatToString(k) + "]: " + FormatPlain(item, ser)
  }

  /** The lines for the first n items of an enumerable nested member. */
  function MemberItemLines(member: string, items: seq<Value>, ser: Serializer, n: nat): (r: seq<string>)
    requires n <= |items|
    ensures |r| == n
  {
    if n == 0 then []
    else MemberItemLines(member, items, ser, n - 1) + [MemberItemLine(member, items[n - 1], ser, n - 1)]
  }

  /** The items are numbered consecutively from 0, in enumeration order. */
  lemma {:induction false} MemberItemLinesAt(member: string, items: seq<Value>, ser: Serializer, n: nat)
    requires n <= |items|
    ensures forall k :: 0 <= k < n ==>
              MemberItemLines(member, items, ser, n)[k] == MemberItemLine(member, items[k], ser, k)
  {
    if n > 0 {
      MemberItemLinesAt(member, items, ser, n - 1);
      var prev := MemberItemLines(member, items, ser, n - 1);
      var last := MemberItemLine(member, items[n - 1], ser, n - 1);
      assert MemberItemLines(member, items, ser, n) == prev + [last];
      forall k | 0 <= k < n ensures MemberItemLines(member, items, ser, n)[k] == MemberItemLine(member, items[k], ser, k) {
        if k < n - 1 {
          assert (prev + [last])[k] == prev[k];
        }
      }
    }
  }

  /** The lines for one preferred nested member. */
  function MemberLines(value: Value, member: string, ser: Serializer): seq<string> {
    if !MemberShown(value, member) then []
    else
      var nested := GetProp(value, member).value;
      if IsScalar(nested) then ["  " + member + ": " + FormatScalar(nested)]
      else if IsEnumerable(nested) then
        var items := EnumItems(nested);
        MemberItemLines(member, items, ser, |items|)
      else ["  " + member + ": " + FormatPlain(nested, ser)]
  }

  /** The lines for the first n preferred members. */
  function AllMemberLines(value: Value, members: seq<string>, ser: Serializer, n: nat): seq<string>
    requires n <= |members|
  {
    if n == 0 then [] else AllMemberLines(value, members, ser, n - 1) + MemberLines(value, members[n - 1], ser)
  }

  /** The `wroteAny` flag after the first n preferred members. */
  predicate WroteAny(value: Value, members: seq<string>, n: nat)
    requires n <= |members|
  {
    n > 0 && (WroteAny(value, members, n - 1) || MemberShown(value, members[n - 1]))
  }

  /** The flag is set exactly when one of the first n members is shown. */
  lemma {:induction false} WroteAnyExactly(value: Value, members: seq<string>, n: nat)
    requires n <= |members|
    ensures WroteAny(value, members, n) <==> exists j :: 0 <= j < n && MemberShown(value, members[j])
  {
    if n > 0 {
      WroteAnyExactly(value, members, n - 1);
      if exists j :: 0 <= j < n && MemberShown(value, members[j]) {
        var j :| 0 <= j < n && MemberShown(value, members[j]);
        if j < n - 1 {
          assert WroteAny(value, members, n - 1);
        }
      }
      if MemberShown(value, members[n - 1]) {
        assert 0 <= n - 1 < n && MemberShown(value, members[n - 1]);
      }
    }
  }

  /** A shown member always writes something. A shown collection is never
      empty, so the source's "(empty)" marker for it cannot be written and
      the model leaves it out. */
  lemma MemberLinesWritten(value: Value, member: string, ser: Serializer)
    ensures MemberLines(value, member, ser) != [] <==> MemberShown(value, member)
    ensures MemberShown(value, member) && IsEnumerable(GetProp(value, member).value) ==>
              var items := EnumItems(GetProp(value, member).value);
              && |items| > 0
              && MemberLines(value, member, ser) == MemberItemLines(member, items, ser, |items|)
  {
    if MemberShown(value, member) {
      var nested := GetProp(value, member).value;
      if IsEnumerable(nested) {
        var items := EnumItems(nested);
        assert |items| > 0;
        assert MemberItemLines(member, items, ser, |items|) + [] == MemberItemLines(member, items, ser, |items|);
      }
    }
  }

  /** `wroteAny` is set exactly when some preferred member wrote lines. */
  lemma {:induction false} WroteAnyIffLines(value: Value, members: seq<string>, ser: Serializer, n: nat)
    requires n <= |members|
    ensures WroteAny(value, members, n) <==> AllMemberLines(value, members, ser, n) != []
  {
    if n > 0 {
      WroteAnyIffLines(value, members, ser, n - 1);
      MemberLinesWritten(value, members[n - 1], ser);
      var prev := AllMemberLines(value, members, ser, n - 1);
      var last := MemberLines(value, members[n - 1], ser);
      assert AllMemberLines(value, members, ser, n) == prev + last;
      assert |prev + last| == |prev| + |last|;
    }
  }

  /** WriteNestedIfPresent: nothing for an absent or empty member; one line
      for a scalar; else the preferred nested members, falling back to the
      indented whole-value view when none of them is shown. */
  function NestedLines(obj: Value, propName: string, ser: Serializer, preferred: seq<string>): seq<string> {
    match GetProp(obj, propName)
    case None => []
    case Some(value) =>
      if IsNullOrEmpty(value) then []
      else if IsScalar(value) then [propName + ": " + FormatScalar(value)]
      else if |preferred| > 0 then
        AllMemberLines(value, preferred, ser, |preferred|)
          + (if WroteAny(value, preferred, |preferred|) then [] else [FormatAuto(value, ser, Some("  "))])
      else [FormatAuto(value, ser, Some("  "))]
  }

  /** When no preferred member is shown, the nested section is exactly the
      indented whole-value view. */
  lemma NestedFallback(obj: Value, propName: string, ser: Serializer, preferred: seq<string>)
    requires GetProp(obj, propName).Some?
    requires var v := GetProp(obj, propName).value; !IsNullOrEmpty(v) && !IsScalar(v)
    requires forall j :: 0 <= j < |preferred| ==> !MemberShown(GetProp(obj, propName).value, preferred[j])
    ensures NestedLines(obj, propName, ser, preferred) == [FormatAuto(GetProp(obj, propName).value, ser, Some("  "))]
  {
    WroteAnyIffLines(GetProp(obj, propName).value, preferred, ser, |preferred|);
    WroteAnyExactly(GetProp(obj, propName).value, preferred, |preferred|);
  }

  /** The default item formatter, used when no `itemFormatter` is given. */
  function ScalarOrJson(ser: Serializer): Value -> string {
    v => FormatScalarOrJson(v, ser)
  }

  /** Item k of a collection: `  [k] value`. */
  function NumberedLine(itemFormatter: Value -> string, item: Value, k: nat): string {
    "  [" + NatToString(k) + "] " + itemFormatter(item)
  }

  /** The numbered item lines of a collection, the first n of them. */
  function NumberedLines(items: seq<Value>, itemFormatter: Value -> string, n: nat): (r: seq<string>)
    requires n <= |items|
    ensures |r| == n
  {
    if n == 0 then []
    else NumberedLines(items, itemFormatter, n - 1) + [NumberedLine(itemFormatter, items[n - 1], n - 1)]
  }

  /** The items are numbered consecutively from 0, in enumeration order. */
  lemma {:induction false} NumberedLinesAt(items: seq<Value>, itemFormatter: Value -> string, n: nat)
    requires n <= |items|
    ensures forall k :: 0 <= k < n ==>
              NumberedLines(items, itemFormatter, n)[k] == NumberedLine(itemFormatter, items[k], k)
  {
    if n > 0 {
      NumberedLinesAt(items, itemFormatter, n - 1);
      var prev := NumberedLines(items, itemFormatter, n - 1);
      var last := NumberedLine(itemFormatter, items[n - 1], n - 1);
      assert NumberedLines(items, itemFormatter, n) == prev + [last];
      forall k | 0 <= k < n ensures NumberedLines(items, itemFormatter, n)[k] == NumberedLine(itemFormatter, items[k], k) {
        if k < n - 1 {
          assert (prev + [last])[k] == prev[k];
        }
      }
    }
  }

  /** WriteCollectionIfPresent: nothing for an absent or null member; the
      items numbered from 0, or "  (empty)"; a single line for a non-collection. */
  function CollectionLines(obj: Value, propName: string, itemFormatter: Value -> string, ser: Serializer): seq<string> {
    match GetProp(obj, propName)
    case None => []
    case Some(value) =>
      if value.Null? then []
      else if IsEnumerable(value) then
        var items := EnumItems(value);
        NumberedLines(items, itemFormatter, |items|) + (if |items| == 0 then ["  (empty)"] else [])
      else ["  " + propName + ": " + FormatScalarOrJson(value, ser)]
  }

  /** The label of a dictionary entry's key. */
  function KeyText(key: Value): string {
    ToString(key).GetOr("(null)")
  }

  /** One dictionary entry: `  key: value`. */
  function EntryLine(entry: Entry, ser: Serializer): string {
    "  " + KeyText(entry.key) + ": " + FormatPlain(entry.value, ser)
  }

  /** The entry lines of a dictionary, the first n of them. */
  function EntryLines(entries: seq<Entry>, ser: Serializer, n: nat): (r: seq<string>)
    requires n <= |entries|
    ensures |r| == n
  {
    if n == 0 then [] else EntryLines(entries, ser, n - 1) + [EntryLine(entries[n - 1], ser)]
  }

  /** One line per entry, in enumeration order. */
  lemma {:induction false} EntryLinesAt(entries: seq<Entry>, ser: Serializer, n: nat)
    requires n <= |entries|
    ensures forall k :: 0 <= k < n ==> EntryLines(entries, ser, n)[k] == EntryLine(entries[k], ser)
  {
    if n > 0 {
      EntryLinesAt(entries, ser, n - 1);
      var prev := EntryLines(entries, ser, n - 1);
      var last := EntryLine(entries[n - 1], ser);
      assert EntryLines(entries, ser, n) == prev + [last];
      forall k | 0 <= k < n ensures EntryLines(entries, ser, n)[k] == EntryLine(entries[k], ser) {
        if k < n - 1 {
          assert (prev + [last])[k] == prev[k];
        }
      }
    }
  }

  /** WriteDictionaryIfPresent: nothing for an absent or null member;
      "  (empty)" for an empty dictionary; one `key: value` line per entry;
      the indented whole-value view for anything else. */
  function DictionaryLines(obj: Value, propName: string, ser: Serializer): seq<string> {
    match GetProp(obj, propName)
    case None => []
    case Some(value) =>
      if value.Null? then []
      else if value.Dict? then
        if |value.entries| == 0 then ["  (empty)"] else EntryLines(value.entries, ser, |value.entries|)
      else [FormatAuto(value, ser, Some("  "))]
  }

  /** A present collection prints its items numbered from 0 in enumeration
      order, or a single "(empty)" marker when it has none. */
  lemma CollectionNumbering(obj: Value, propName: string, itemFormatter: Value -> string, ser: Serializer, value: Value)
    requires GetProp(obj, propName) == Some(value) && IsEnumerable(value)
    ensures var items := EnumItems(value);
            var lines := CollectionLines(obj, propName, itemFormatter, ser);
            && (|items| == 0 ==> lines == ["  (empty)"])
            && (|items| > 0 ==> |lines| == |items|)
            && (|items| > 0 ==> forall k :: 0 <= k < |items| ==>
                                  lines[k] == "  [" + NatToString(k) + "] " + itemFormatter(items[k]))
  {
    var items := EnumItems(value);
    var numbered := NumberedLines(items, itemFormatter, |items|);
    assert CollectionLines(obj, propName, itemFormatter, ser)
        == numbered + (if |items| == 0 then ["  (empty)"] else []);
    NumberedLinesAt(items, itemFormatter, |items|);
    if |items| == 0 {
      assert numbered == [];
    } else {
      assert numbered + [] == numbered;
    }
  }

  /** A present dictionary prints one `key: value` line per entry in
      enumeration order, "(null)" standing for a null key, or a single
      "(empty)" marker when it has no entries. */
  lemma DictionaryEntries(obj: Value, propName: string, ser: Serializer, value: Value)
    requires GetProp(obj, propName) == Some(value) && value.Dict?
    ensures var entries := value.entries;
            var lines := DictionaryLines(obj, propName, ser);
            && (|entries| == 0 ==> lines == ["  (empty)"])
            && (|entries| > 0 ==> |lines| == |entries|)
            && (|entries| > 0 ==> forall k :: 0 <= k < |entries| ==> lines[k] == EntryLine(entries[k], ser))
            && (forall k :: 0 <= k < |entries| && entries[k].key.Null? ==>
                  EntryLine(entries[k], ser) == "  (null): " + FormatPlain(entries[k].value, ser))
  {
    var entries := value.entries;
    if |entries| > 0 {
      assert DictionaryLines(obj, propName, ser) == EntryLines(entries, ser, |entries|);
      EntryLinesAt(entries, ser, |entries|);
    }
    forall k | 0 <= k < |entries| && entries[k].key.Null?
      ensures EntryLine(entries[k], ser) == "  (null): " + FormatPlain(entries[k].value, ser)
    {
      assert KeyText(entries[k].key) == "(null)";
    }
  }

  /** The raw view: indented JSON of the whole card, or its dump when
      serialisation throws. */
  function RawViewLines(card: Value, ser: Serializer): seq<string>
  {
    match ser.indented(card)
    case Some(json) => [json]
    case None => [ReflectiveDump(card)]
  }

  /** The well-known simple members, one line each when present. */
  function SimpleMemberLines(card: Value): seq<string> {
    IfPresentLines(card, "Id")
    + IfPresentLines(card, "Name")
    + IfPresentLines(card, "Url")
    + IfPresentLines(card, "Description")
    + IfPresentLines(card, "Version")
    + IfPresentLines(card, "Owner")
    + IfPresentLines(card, "Vendor")
    + IfPresentLines(card, "Category")
  }

  /** The sections of the complex and collection members. */
  function ComplexMemberLines(card: Value, ser: Serializer): seq<string> {
    SectionHeaderLines("Capabilities")
    + NestedLines(card, "Capabilities", ser, CapabilityMembers)
    + SectionHeaderLines("Default Input Modes")
    + CollectionLines(card, "DefaultInputModes", ScalarOrJson(ser), ser)
    + SectionHeaderLines("Skills")
    + CollectionLines(card, "Skills", FormatSkill, ser)
    + SectionHeaderLines("Extensions")
    + DictionaryLines(card, "Extensions", ser)
    + SectionHeaderLines("Endpoints")
    + CollectionLines(card, "Endpoints", ScalarOrJson(ser), ser)
    + SectionHeaderLines("Tags")
    + CollectionLines(card, "Tags", ScalarOrJson(ser), ser)
    + SectionHeaderLines("Metadata")
    + DictionaryLines(card, "Metadata", ser)
  }

  /** Everything between the opening and the closing rule. */
  function CardBodyLines(card: Value, ser: Serializer): seq<string> {
    SimpleMemberLines(card)
    + [""]
    + ComplexMemberLines(card, ser)
    + SectionHeaderLines("Raw View (JSON)")
    + RawViewLines(card, ser)
  }

  /** The lines of a card's rendering. */
  function CardLines(card: Value, ser: Serializer): seq<string> {
    if card.Null? then [NullCardLine]
    else [Rule, Title, Rule] + CardBodyLines(card, ser) + [Rule]
  }

  /** The whole rendering of a card. */
  function CardText(card: Value, ser: Serializer): string {
    Emitted(CardLines(card, ser))
  }

  lemma HeaderText()
    ensures Emitted([Rule, Title, Rule]) == Rule + "\n" + Title + "\n" + Rule + "\n"
  {
    EmittedOne(Rule);
    EmittedSnoc([Rule], Title);
    EmittedSnoc([Rule, Title], Rule);
    assert [Rule] + [Title] == [Rule, Title];
    assert [Rule, Title] + [Rule] == [Rule, Title, Rule];
  }

  /** A null card renders as one warning line and nothing else. */
  lemma RenderNullCard(ser: Serializer)
    ensures CardText(Null, ser) == NullCardLine + "\n"
    ensures Split(CardText(Null, ser), '\n') == [NullCardLine, ""]
  {
    EmittedOne(NullCardLine);
    assert '\n' !in NullCardLine;
    EmittedSplits([NullCardLine]);
  }

  /** Any other card opens with rule, title, rule and closes with the rule;
      the rule is 70 box-drawing characters. */
  lemma RenderLayout(card: Value, ser: Serializer)
    requires !card.Null?
    ensures |Rule| == 70 && forall i :: 0 <= i < |Rule| ==> Rule[i] == '\U{2500}'
    ensures var r := CardText(card, ser);
            var header := Rule + "\n" + Title + "\n" + Rule + "\n";
            var footer := Rule + "\n";
            && header <= r
            && |r| >= |header| + |footer|
            && r[|r| - |footer|..] == footer
  {
    var body := CardBodyLines(card, ser);
    HeaderText();
    EmittedOne(Rule);
    EmittedAppend([Rule, Title, Rule], body);
    EmittedAppend([Rule, Title, Rule] + body, [Rule]);
    var header := Rule + "\n" + Title + "\n" + Rule + "\n";
    var footer := Rule + "\n";
    assert CardText(card, ser) == header + Emitted(body) + footer;
    Framed(header, Emitted(body), footer);
  }

  /** A text made of a head, a middle and a tail starts with the head and
      ends with the tail. */
  lemma Framed(head: string, middle: string, tail: string)
    ensures head <= head + middle + tail
    ensures var t := head + middle + tail; t[|t| - |tail|..] == tail
  {
  }

  // ---------- the writers ----------

  /** A StringBuilder used only through AppendLine: the lines appended so
      far, whose text is `Emitted(lines)`. */
  class StringBuilder {
    var lines: seq<string>

    constructor()
      ensures lines == []
    {
      lines := [];
    }

    method AppendLine(line: string)
      modifies this
      ensures lines == old(lines) + [line]
    {
      lines := lines + [line];
    }

    function ToString(): (r: string)
      reads this
    {
      Emitted(lines)
    }
  }

  method WriteSectionHeader(sb: StringBuilder, title: string)
    modifies sb
    ensures sb.lines == old(sb.lines) + SectionHeaderLines(title)
  {
    sb.AppendLine("");
    sb.AppendLine("\U{2022} " + title + ":");
  }

  method WriteIfPresent(sb: StringBuilder, obj: Value, propName: string)
    modifies sb
    ensures sb.lines == old(sb.lines) + IfPresentLines(obj, propName)
  {
    var prop := GetProp(obj, propName);
    if prop.None? { return; }
    var value := prop.value;
    if IsNullOrEmpty(value) { return; }
    sb.AppendLine(propName + ": " + FormatScalar(value));
  }

  method WriteNestedIfPresent(sb: StringBuilder, obj: Value, propName: string, ser: Serializer, preferred: seq<string>)
    modifies sb
    ensures sb.lines == old(sb.lines) + NestedLines(obj, propName, ser, preferred)
  {
    var prop := GetProp(obj, propName);
    if prop.None? { return; }
    var value := prop.value;
    if IsNullOrEmpty(value) { return; }
    if IsScalar(value) {
      sb.AppendLine(propName + ": " + FormatScalar(value));
      return;
    }
    if |preferred| > 0 {
      var wroteAny := WritePreferredMembers(sb, value, ser, preferred);
      if !wroteAny {
        sb.AppendLine(FormatAuto(value, ser, Some("  ")));
      }
    } else {
      sb.AppendLine(FormatAuto(value, ser, Some("  ")));
    }
  }

  /** The loop over the preferred nested members; returns `wroteAny`. */
  method WritePreferredMembers(sb: StringBuilder, value: Value, ser: Serializer, preferred: seq<string>) returns (wroteAny: bool)
    modifies sb
    ensures wroteAny == WroteAny(value, preferred, |preferred|)
    ensures sb.lines == old(sb.lines) + AllMemberLines(value, preferred, ser, |preferred|)
  {
    wroteAny := false;
    var m := 0;
    while m < |preferred|
      invariant 0 <= m <= |preferred|
      invariant sb.lines == old(sb.lines) + AllMemberLines(value, preferred, ser, m)
      invariant wroteAny <==> WroteAny(value, preferred, m)
    {
      var wrote := WriteMember(sb, value, preferred[m], ser);
      PreferredStep(old(sb.lines), sb.lines, value, preferred, ser, m, wroteAny, wrote);
      wroteAny := wroteAny || wrote;
      m := m + 1;
    }
  }

  /** What one pass of that loop adds to the lines and to `wroteAny`. */
  lemma PreferredStep(start: seq<string>, lines: seq<string>, value: Value, preferred: seq<string>, ser: Serializer,
                      m: nat, wroteAny: bool, wrote: bool)
    requires m < |preferred|
    requires lines == start + AllMemberLines(value, preferred, ser, m) + MemberLines(value, preferred[m], ser)
    requires wroteAny <==> WroteAny(value, preferred, m)
    requires wrote == MemberShown(value, preferred[m])
    ensures lines == start + AllMemberLines(value, preferred, ser, m + 1)
    ensures wroteAny || wrote <==> WroteAny(value, preferred, m + 1)
  {
    AppendRegroup(start, AllMemberLines(value, preferred, ser, m), MemberLines(value, preferred[m], ser));
  }

  /** One pass of that loop. */
  method WriteMember(sb: StringBuilder, value: Value, member: string, ser: Serializer) returns (wrote: bool)
    modifies sb
    ensures wrote == MemberShown(value, member)
    ensures sb.lines == old(sb.lines) + MemberLines(value, member, ser)
  {
    var nested := GetProp(value, member);
    if nested.None? { return false; }
    var nestedVal := nested.value;
    if IsNullOrEmpty(nestedVal) { return false; }
    wrote := true;
    if IsScalar(nestedVal) {
      sb.AppendLine("  " + member + ": " + FormatScalar(nestedVal));
    } else if IsEnumerable(nestedVal) {
      var items := EnumItems(nestedVal);
      var i := 0;
      while i < |items|
        invariant 0 <= i <= |items|
        invariant sb.lines == old(sb.lines) + MemberItemLines(member, items, ser, i)
      {
        sb.AppendLine(MemberItemLine(member, items[i], ser, i));
        AppendRegroup(old(sb.lines), MemberItemLines(member, items, ser, i), [MemberItemLine(member, items[i], ser, i)]);
        i := i + 1;
      }
      // The source's "(empty)" marker after this loop is unreachable: a
      // shown collection has items (MemberLinesWritten).
    } else {
      sb.AppendLine("  " + member + ": " + FormatPlain(nestedVal, ser));
    }
  }

  method WriteCollectionIfPresent(sb: StringBuilder, obj: Value, propName: string, itemFormatter: Value -> string, ser: Serializer)
    modifies sb
    ensures sb.lines == old(sb.lines) + CollectionLines(obj, propName, itemFormatter, ser)
  {
    var prop := GetProp(obj, propName);
    if prop.None? { return; }
    var value := prop.value;
    if value.Null? { return; }
    if IsEnumerable(value) {
      var items := EnumItems(value);
      var i := 0;
      while i < |items|
        invariant 0 <= i <= |items|
        invariant sb.lines == old(sb.lines) + NumberedLines(items, itemFormatter, i)
      {
        var line := itemFormatter(items[i]);
        sb.AppendLine("  [" + NatToString(i) + "] " + line);
        AppendRegroup(old(sb.lines), NumberedLines(items, itemFormatter, i), [NumberedLine(itemFormatter, items[i], i)]);
        i := i + 1;
      }
      if i == 0 {
        sb.AppendLine("  (empty)");
      }
    } else {
      sb.AppendLine("  " + propName + ": " + FormatScalarOrJson(value, ser));
    }
  }

  method WriteDictionaryIfPresent(sb: StringBuilder, obj: Value, propName: string, ser: Serializer)
    modifies sb
    ensures sb.lines == old(sb.lines) + DictionaryLines(obj, propName, ser)
  {
    var prop := GetProp(obj, propName);
    if prop.None? { return; }
    var value := prop.value;
    if value.Null? { return; }
    if value.Dict? {
      var entries := value.entries;
      if |entries| == 0 {
        sb.AppendLine("  (empty)");
        return;
      }
      var i := 0;
      while i < |entries|
        invariant 0 <= i <= |entries|
        invariant sb.lines == old(sb.lines) + EntryLines(entries, ser, i)
      {
        var k := KeyText(entries[i].key);
        var v := entries[i].value;
        sb.AppendLine("  " + k + ": " + FormatPlain(v, ser));
        AppendRegroup(old(sb.lines), EntryLines(entries, ser, i), [EntryLine(entries[i], ser)]);
        i := i + 1;
      }
    } else {
      sb.AppendLine(FormatAuto(value, ser, Some("  ")));
    }
  }

  /** RenderAgentIdentityCard: the text of the card's lines. */
  method RenderAgentIdentityCard(card: Value, ser: Serializer) returns (r: string)
    ensures r == CardText(card, ser)
  {
    var sb := new StringBuilder();
    if card.Null? {
      sb.AppendLine(NullCardLine);
      return sb.ToString();
    }
    sb.AppendLine(Rule);
    sb.AppendLine(Title);
    sb.AppendLine(Rule);
    ghost var start := sb.lines;
    assert start == [Rule, Title, Rule];

    WriteSimpleMembers(sb, card);
    ghost var acc := SimpleMemberLines(card);
    sb.AppendLine("");
    AppendRegroup(start, acc, [""]);
    acc := acc + [""];
    WriteComplexMembers(sb, card, ser);
    AppendRegroup(start, acc, ComplexMemberLines(card, ser));
    acc := acc + ComplexMemberLines(card, ser);

    WriteSectionHeader(sb, "Raw View (JSON)");
    AppendRegroup(start, acc, SectionHeaderLines("Raw View (JSON)"));
    acc := acc + SectionHeaderLines("Raw View (JSON)");
    match ser.indented(card) {
      case Some(json) => sb.AppendLine(json);
      case None => sb.AppendLine(ReflectiveDump(card));
    }
    AppendRegroup(start, acc, RawViewLines(card, ser));
    acc := acc + RawViewLines(card, ser);
    assert acc == CardBodyLines(card, ser);

    sb.AppendLine(Rule);
    assert sb.lines == CardLines(card, ser);
    r := sb.ToString();
  }

  /** Appending a block after an accumulated prefix regroups. */
  lemma AppendRegroup(start: seq<string>, acc: seq<string>, more: seq<string>)
    ensures start + acc + more == start + (acc + more)
  {
  }

  /** The well-known simple members (the eight WriteIfPresent calls). */
  method WriteSimpleMembers(sb: StringBuilder, card: Value)
    modifies sb
    ensures sb.lines == old(sb.lines) + SimpleMemberLines(card)
  {
    ghost var start := sb.lines;
    WriteIfPresent(sb, card, "Id");
    ghost var acc := IfPresentLines(card, "Id");
    WriteIfPresent(sb, card, "Name");
    AppendRegroup(start, acc, IfPresentLines(card, "Name"));
    acc := acc + IfPresentLines(card, "Name");
    WriteIfPresent(sb, card, "Url");
    AppendRegroup(start, acc, IfPresentLines(card, "Url"));
    acc := acc + IfPresentLines(card, "Url");
    WriteIfPresent(sb, card, "Description");
    AppendRegroup(start, acc, IfPresentLines(card, "Description"));
    acc := acc + IfPresentLines(card, "Description");
    WriteIfPresent(sb, card, "Version");
    AppendRegroup(start, acc, IfPresentLines(card, "Version"));
    acc := acc + IfPresentLines(card, "Version");
    WriteIfPresent(sb, card, "Owner");
    AppendRegroup(start, acc, IfPresentLines(card, "Owner"));
    acc := acc + IfPresentLines(card, "Owner");
    WriteIfPresent(sb, card, "Vendor");
    AppendRegroup(start, acc, IfPresentLines(card, "Vendor"));
    acc := acc + IfPresentLines(card, "Vendor");
    WriteIfPresent(sb, card, "Category");
    AppendRegroup(start, acc, IfPresentLines(card, "Category"));
    acc := acc + IfPresentLines(card, "Category");
  }

  /** The complex and collection members, each under its section header. */
  method WriteComplexMembers(sb: StringBuilder, card: Value, ser: Serializer)
    modifies sb
    ensures sb.lines == old(sb.lines) + ComplexMemberLines(card, ser)
  {
    ghost var start := sb.lines;
    WriteSectionHeader(sb, "Capabilities");
    ghost var acc := SectionHeaderLines("Capabilities");
    WriteNestedIfPresent(sb, card, "Capabilities", ser, CapabilityMembers);
    AppendRegroup(start, acc, NestedLines(card, "Capabilities", ser, CapabilityMembers));
    acc := acc + NestedLines(card, "Capabilities", ser, CapabilityMembers);

    WriteSectionHeader(sb, "Default Input Modes");
    AppendRegroup(start, acc, SectionHeaderLines("Default Input Modes"));
    acc := acc + SectionHeaderLines("Default Input Modes");
    WriteCollectionIfPresent(sb, card, "DefaultInputModes", ScalarOrJson(ser), ser);
    AppendRegroup(start, acc, CollectionLines(card, "DefaultInputModes", ScalarOrJson(ser), ser));
    acc := acc + CollectionLines(card, "DefaultInputModes", ScalarOrJson(ser), ser);

    WriteSectionHeader(sb, "Skills");
    AppendRegroup(start, acc, SectionHeaderLines("Skills"));
    acc := acc + SectionHeaderLines("Skills");
    WriteCollectionIfPresent(sb, card, "Skills", FormatSkill, ser);
    AppendRegroup(start, acc, CollectionLines(card, "Skills", FormatSkill, ser));
    acc := acc + CollectionLines(card, "Skills", FormatSkill, ser);

    WriteSectionHeader(sb, "Extensions");
    AppendRegroup(start, acc, SectionHeaderLines("Extensions"));
    acc := acc + SectionHeaderLines("Extensions");
    WriteDictionaryIfPresent(sb, card, "Extensions", ser);
    AppendRegroup(start, acc, DictionaryLines(card, "Extensions", ser));
    acc := acc + DictionaryLines(card, "Extensions", ser);

    WriteSectionHeader(sb, "Endpoints");
    AppendRegroup(start, acc, SectionHeaderLines("Endpoints"));
    acc := acc + SectionHeaderLines("Endpoints");
    WriteCollectionIfPresent(sb, card, "Endpoints", ScalarOrJson(ser), ser);
    AppendRegroup(start, acc, CollectionLines(card, "Endpoints", ScalarOrJson(ser), ser));
    acc := acc + CollectionLines(card, "Endpoints", ScalarOrJson(ser), ser);

    WriteSectionHeader(sb, "Tags");
    AppendRegroup(start, acc, SectionHeaderLines("Tags"));
    acc := acc + SectionHeaderLines("Tags");
    WriteCollectionIfPresent(sb, card, "Tags", ScalarOrJson(ser), ser);
    AppendRegroup(start, acc, CollectionLines(card, "Tags", ScalarOrJson(ser), ser));
    acc := acc + CollectionLines(card, "Tags", ScalarOrJson(ser), ser);

    WriteSectionHeader(sb, "Metadata");
    AppendRegroup(start, acc, SectionHeaderLines("Metadata"));
    acc := acc + SectionHeaderLines("Metadata");
    WriteDictionaryIfPresent(sb, card, "Metadata", ser);
    AppendRegroup(start, acc, DictionaryLines(card, "Metadata", ser));
    acc := acc + DictionaryLines(card, "Metadata", ser);
  }
}
