/** The OpenAPI schema pruning of normalizeControlOpenApi: the worklist against
    reachability by `$ref` chains. */
module SchemaReachability {
  import opened Options

  datatype Json =
    | Text(text: string)
    | Scalar
    | Array(entries: seq<Json>)
    | Object(fields: seq<(string, Json)>)

  const PREFIX := "#/components/schemas/"

  predicate StartsWith(s: string, prefix: string) { prefix <= s }

  /** The schema a field refers to, if it is a `$ref` into the schemas. */
  function Reference(field: (string, Json)): Option<string> {
    if field.0 == "$ref" && field.1.Text? && StartsWith(field.1.text, PREFIX) then Some(field.1.text[|PREFIX|..])
      else None
  }

  // ----- Mentioned names -----

  /** The schema names a value mentions at any depth. */
  ghost function Mentions(value: Json): set<string>
    decreases value
  {
    match value
    case Array(entries) => set i, name | 0 <= i < |entries| && name in Mentions(entries[i]) :: name
    case Object(fields) => set i, name | 0 <= i < |fields| && name in FieldMentions(fields[i]) :: name
    case _ => {}
  }

  ghost function FieldMentions(field: (string, Json)): set<string>
    decreases field
  {
    if Reference(field).Some? then {Reference(field).value} else Mentions(field.1)
  }

  ghost function EntryMentions(entries: seq<Json>, count: nat): set<string>
    requires count <= |entries|
  {
    set i, name | 0 <= i < count && name in Mentions(entries[i]) :: name
  }

  ghost function FieldsMention(fields: seq<(string, Json)>, count: nat): set<string>
    requires count <= |fields|
  {
    set i, name | 0 <= i < count && name in FieldMentions(fields[i]) :: name
  }

  lemma NextEntry(entries: seq<Json>, count: nat)
    requires count < |entries|
    ensures EntryMentions(entries, count + 1) == EntryMentions(entries, count) + Mentions(entries[count])
  {
  }

  lemma NextField(fields: seq<(string, Json)>, count: nat)
    requires count < |fields|
    ensures FieldsMention(fields, count + 1) == FieldsMention(fields, count) + FieldMentions(fields[count])
  {
  }

  lemma AllMentions(value: Json)
    ensures value.Array? ==>
      Mentions(value) == EntryMentions(value.entries, |value.entries|) && EntryMentions(value.entries, 0) == {}
    ensures value.Object? ==>
      Mentions(value) == FieldsMention(value.fields, |value.fields|) && FieldsMention(value.fields, 0) == {}
    ensures !value.Array? && !value.Object? ==> Mentions(value) == {}
  {
  }

  /** Adds every mentioned name to the set, the way the source fills its Set. */
  method CollectSchemaReferences(value: Json, references: set<string>) returns (result: set<string>)
    ensures result == references + Mentions(value)
    decreases value
  {
    hide EntryMentions, FieldsMention;
    result := references;
    AllMentions(value);
    match value {
      case Array(entries) =>
        for i := 0 to |entries|
          invariant result == references + EntryMentions(entries, i)
        {
          result := CollectSchemaReferences(entries[i], result);
          NextEntry(entries, i);
        }
      case Object(fields) =>
        for i := 0 to |fields|
          invariant result == references + FieldsMention(fields, i)
        {
          var reference := Reference(fields[i]);
          if reference.Some? { result := result + {reference.value}; }
          else { result := CollectSchemaReferences(fields[i].1, result); }
          NextField(fields, i);
        }
      case _ =>
    }
  }

  // ----- Reachability -----

  type Schemas = map<string, Json>

  /** The names a schema mentions; a dangling name mentions nothing. */
  ghost function Dependencies(schemas: Schemas, name: string): set<string> {
    if name in schemas then Mentions(schemas[name]) else {}
  }

  /** A chain of references from a root to the last name. */
  ghost predicate Chain(schemas: Schemas, roots: set<string>, chain: seq<string>) {
    && chain != [] && chain[0] in roots
    && (forall i :: 0 < i < |chain| ==> chain[i] in Dependencies(schemas, chain[i - 1]))
  }

  ghost predicate Reachable(schemas: Schemas, roots: set<string>, name: string) {
    exists chain: seq<string> :: Chain(schemas, roots, chain) && chain[|chain| - 1] == name
  }

  lemma RootsReachable(schemas: Schemas, roots: set<string>, name: string)
    requires name in roots
    ensures Reachable(schemas, roots, name)
  {
    assert Chain(schemas, roots, [name]);
  }

  lemma DependenciesReachable(schemas: Schemas, roots: set<string>, name: string, dependency: string)
    requires Reachable(schemas, roots, name) && dependency in Dependencies(schemas, name)
    ensures Reachable(schemas, roots, dependency)
  {
    var chain: seq<string> :| Chain(schemas, roots, chain) && chain[|chain| - 1] == name;
    assert Chain(schemas, roots, chain + [dependency]);
  }

  /** A set with the roots that is closed under references holds every reachable name. */
  lemma {:induction false} ClosedHoldsChain(schemas: Schemas, roots: set<string>, kept: set<string>, chain: seq<string>)
    requires Chain(schemas, roots, chain)
    requires roots <= kept && forall name :: name in kept ==> Dependencies(schemas, name) <= kept
    ensures chain[|chain| - 1] in kept
  {
    if |chain| > 1 {
      var rest := chain[..|chain| - 1];
      assert Chain(schemas, roots, rest);
      ClosedHoldsChain(schemas, roots, kept, rest);
    }
  }

  // ----- The worklist -----

  /** Every name any schema mentions: what bounds the work. */
  ghost function Universe(schemas: Schemas, roots: set<string>): set<string> {
    roots + (set s, name | s in schemas && name in Mentions(schemas[s]) :: name)
  }

  ghost predicate WorkInv(
    schemas: Schemas, roots: set<string>, references: set<string>, queue: seq<string>, processed: set<string>) {
    && roots <= references && processed <= references
    && (forall name :: name in queue ==> name in references)
    && (forall name :: name in references ==> name in processed || name in queue)
    && (forall name :: name in processed ==> Dependencies(schemas, name) <= references)
    && (forall name :: name in references ==> Reachable(schemas, roots, name))
    && references <= Universe(schemas, roots)
  }

  /** The roots in some order. */
  method ToQueue(names: set<string>) returns (queue: seq<string>)
    ensures forall name :: name in queue <==> name in names
  {
    queue := [];
    var rest := names;
    while rest != {}
      invariant rest <= names && forall name :: name in queue <==> name in names - rest
      decreases rest
    {
      var name :| name in rest;
      queue := queue + [name];
      rest := rest - {name};
    }
  }

  /** One schema: its dependencies join the references, and the unprocessed ones the
      queue. */
  method Enqueue(dependencies: set<string>, references: set<string>, queue: seq<string>, processed: set<string>)
    returns (references': set<string>, queue': seq<string>)
    ensures references' == references + dependencies
    ensures forall name :: name in queue' <==> name in queue || (name in dependencies && name !in processed)
  {
    references', queue' := references, queue;
    var rest := dependencies;
    while rest != {}
      invariant rest <= dependencies
      invariant references' == references + (dependencies - rest)
      invariant forall name :: name in queue' <==> name in queue || (name in dependencies - rest && name !in processed)
      decreases rest
    {
      var dependency :| dependency in rest;
      references' := references' + {dependency};
      if dependency !in processed { queue' := queue' + [dependency]; }
      rest := rest - {dependency};
    }
  }

  lemma ProcessStep(
    schemas: Schemas, roots: set<string>, references: set<string>, queue: seq<string>, processed: set<string>,
    name: string,
                    references': set<string>, queue': seq<string>)
    requires WorkInv(schemas, roots, references, queue + [name], processed)
    requires references' == references + Dependencies(schemas, name)
    requires forall x :: x in queue' <==> x in queue || (x in Dependencies(schemas, name) && x !in processed + {name})
    ensures WorkInv(schemas, roots, references', queue', processed + {name})
  {
    assert name in queue + [name];
    forall x | x in references' ensures Reachable(schemas, roots, x) {
      if x in Dependencies(schemas, name) { DependenciesReachable(schemas, roots, name, x); }
    }
    assert Dependencies(schemas, name) <= Universe(schemas, roots);
    forall x | x in references' ensures x in processed + {name} || x in queue' {
      if x in references { assert x in processed || x in queue + [name]; }
    }
  }

  lemma SkipStep(
    schemas: Schemas, roots: set<string>, references: set<string>, queue: seq<string>, processed: set<string>,
    name: string)
    requires WorkInv(schemas, roots, references, queue + [name], processed) && name in processed
    ensures WorkInv(schemas, roots, references, queue, processed)
  {
    forall x | x in references ensures x in processed || x in queue { assert x in processed || x in queue + [name]; }
    forall x | x in queue ensures x in references { assert x in queue + [name]; }
  }

  lemma StartWork(schemas: Schemas, roots: set<string>, queue: seq<string>)
    requires forall name :: name in queue <==> name in roots
    ensures WorkInv(schemas, roots, roots, queue, {})
  {
    forall name | name in roots ensures Reachable(schemas, roots, name) { RootsReachable(schemas, roots, name); }
  }

  /** The next name to process is a new one of the universe. */
  lemma NewName(
    schemas: Schemas, roots: set<string>, references: set<string>, queue: seq<string>, processed: set<string>,
    name: string)
    requires WorkInv(schemas, roots, references, queue + [name], processed) && name !in processed
    ensures Universe(schemas, roots) - (processed + {name}) < Universe(schemas, roots) - processed
  {
    hide Universe, Reachable, Dependencies;
    assert name in queue + [name];
    assert name in Universe(schemas, roots);
  }

  /** An empty queue leaves exactly the reachable names. */
  lemma WorkDone(schemas: Schemas, roots: set<string>, references: set<string>, processed: set<string>)
    requires WorkInv(schemas, roots, references, [], processed)
    ensures forall name :: name in references <==> Reachable(schemas, roots, name)
  {
    hide Universe, Dependencies;
    forall name | Reachable(schemas, roots, name) ensures name in references {
      var chain: seq<string> :| Chain(schemas, roots, chain) && chain[|chain| - 1] == name;
      ClosedHoldsChain(schemas, roots, references, chain);
    }
  }

  /** The loop ends, and its references are exactly the reachable names. */
  method ReferencedSchemas(schemas: Schemas, roots: set<string>) returns (references: set<string>)
    ensures forall name :: name in references <==> Reachable(schemas, roots, name)
  {
    hide WorkInv, Reachable, Universe, Mentions;
    references := roots;
    var queue := ToQueue(roots);
    var processed: set<string> := {};
    StartWork(schemas, roots, queue);
    while queue != []
      invariant WorkInv(schemas, roots, references, queue, processed)
      decreases Universe(schemas, roots) - processed, |queue|
    {
      var name := queue[|queue| - 1];
      var rest := queue[..|queue| - 1];
      assert queue == rest + [name];
      if name in processed {
        SkipStep(schemas, roots, references, rest, processed, name);
        queue := rest;
        continue;
      }
      NewName(schemas, roots, references, rest, processed, name);
      var dependencies := {};
      if name in schemas { dependencies := CollectSchemaReferences(schemas[name], {}); }
      ghost var before := references;
      references, queue := Enqueue(dependencies, references, rest, processed + {name});
      ProcessStep(schemas, roots, before, rest, processed, name, references, queue);
      processed := processed + {name};
    }
    WorkDone(schemas, roots, references, processed);
  }

  // ----- The pruned document -----

  /** The schemas that reachability keeps. */
  ghost function Retained(schemas: Schemas, roots: set<string>): Schemas {
    map name | name in schemas && Reachable(schemas, roots, name) :: schemas[name]
  }

  /** What the normalized document keeps: exactly the schemas reachable from the rest of
      the document, each unchanged. `outside` is the document with its schemas emptied;
      the schema of the API error replaces any of that name. */
  method RetainSchemas(outside: Json, schemas: Schemas, apiError: Json) returns (retained: Schemas)
    ensures retained == Retained(schemas["ApiError" := apiError], Mentions(outside))
  {
    hide Reachable, Mentions;
    var records := schemas["ApiError" := apiError];
    var roots := CollectSchemaReferences(outside, {});
    assert roots == Mentions(outside);
    var references := ReferencedSchemas(records, roots);
    retained := map name | name in records && name in references :: records[name];
  }

  /** Reachability does not change when the unreachable schemas are dropped. */
  lemma {:induction false} ChainKept(schemas: Schemas, roots: set<string>, chain: seq<string>)
    requires Chain(schemas, roots, chain)
    ensures Chain(Retained(schemas, roots), roots, chain)
  {
    if |chain| > 1 {
      var rest := chain[..|chain| - 1];
      assert Chain(schemas, roots, rest);
      ChainKept(schemas, roots, rest);
      var kept := Retained(schemas, roots);
      forall i | 0 < i < |chain| ensures chain[i] in Dependencies(kept, chain[i - 1]) {
        if i < |rest| { assert rest[i] in Dependencies(kept, rest[i - 1]); }
        else { assert Reachable(schemas, roots, chain[i - 1]); }
      }
    }
  }

  lemma ReachableKept(schemas: Schemas, roots: set<string>, name: string)
    ensures Reachable(Retained(schemas, roots), roots, name) <==> Reachable(schemas, roots, name)
  {
    var kept := Retained(schemas, roots);
    if Reachable(schemas, roots, name) {
      var chain: seq<string> :| Chain(schemas, roots, chain) && chain[|chain| - 1] == name;
      ChainKept(schemas, roots, chain);
    }
    if Reachable(kept, roots, name) {
      var chain: seq<string> :| Chain(kept, roots, chain) && chain[|chain| - 1] == name;
      forall i | 0 < i < |chain| ensures chain[i] in Dependencies(schemas, chain[i - 1]) {
        assert chain[i] in Dependencies(kept, chain[i - 1]);
      }
      assert Chain(schemas, roots, chain);
    }
  }

  /** Pruning again prunes nothing. */
  lemma PruningIsIdempotent(schemas: Schemas, roots: set<string>)
    ensures Retained(Retained(schemas, roots), roots) == Retained(schemas, roots)
  {
    hide Reachable;
    forall name ensures Reachable(Retained(schemas, roots), roots, name) <==> Reachable(schemas, roots, name) {
      ReachableKept(schemas, roots, name);
    }
  }

  /** A reference in the pruned document resolves exactly when it did before, to the
      same schema. */
  lemma ReferencesStillResolve(schemas: Schemas, roots: set<string>, name: string)
    requires name in roots || exists s :: s in Retained(schemas, roots) && name in Mentions(Retained(schemas, roots)[s])
    ensures name in Retained(schemas, roots) <==> name in schemas
    ensures name in schemas ==> Retained(schemas, roots)[name] == schemas[name]
  {
    hide Reachable, Mentions;
    if name in roots {
      RootsReachable(schemas, roots, name);
    } else {
      var s :| s in Retained(schemas, roots) && name in Mentions(Retained(schemas, roots)[s]);
      DependenciesReachable(schemas, roots, s, name);
    }
  }

  /** A `$ref` into the schemas mentions the name behind it; any other field what is below. */
  lemma KnownReferences()
    ensures Mentions(Object([("$ref", Text("#/components/schemas/Pet"))])) == {"Pet"}
    ensures Mentions(Object([("ref", Text("#/components/schemas/Pet"))])) == {}
    ensures Mentions(Object([("$ref", Text("#/components/parameters/Pet"))])) == {}
    ensures Mentions(Array([Object([("items", Object([("$ref", Text("#/components/schemas/Pet"))]))])])) == {"Pet"}
  {
    var reference := ("$ref", Text("#/components/schemas/Pet"));
    var text := "#/components/schemas/Pet";
    assert text[|PREFIX|..] == "Pet" && text[..|PREFIX|] == PREFIX;
    assert Reference(reference) == Some("Pet");
    assert FieldMentions(reference) == {"Pet"};
    OneField(reference);
    OneField(("ref", Text(text)));
    var other := "#/components/parameters/Pet";
    assert other[13] != PREFIX[13];
    OneField(("$ref", Text(other)));
    OneField(("items", Object([reference])));
    OneEntry(Object([("items", Object([reference]))]));
  }

  lemma OneField(field: (string, Json))
    ensures Mentions(Object([field])) == FieldMentions(field)
  {
    assert [field][0] == field;
  }

  lemma OneEntry(entry: Json)
    ensures Mentions(Array([entry])) == Mentions(entry)
  {
    assert [entry][0] == entry;
  }
}
