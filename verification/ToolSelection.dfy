/** Selecting hydrated tools through application-owned catalog keys. */
module ToolSelection {
  import opened Wrappers
  import opened Text
  import opened Sequences

  /** A provider tool; metadata holds the operation id it was hydrated for, when it has one. */
  datatype Tool = Tool(name: string, metadata: Option<string>)

  datatype SelectionError =
    | Undeclared(key: string)
    | SelectedTwice(operation: string)
    | HydratedTwice(operation: string)
    | NotHydrated(operations: seq<string>)

  function OperationId(tool: Tool): Option<string> {
    if tool.metadata.Some? && JsTrim(tool.metadata.value) != "" then tool.metadata else None
  }

  predicate Declared(catalog: map<string, string>, key: string) {
    key in catalog && catalog[key] != ""
  }

  /** Every key is declared. */
  predicate AllDeclared(catalog: map<string, string>, selected: seq<string>) {
    forall i :: 0 <= i < |selected| ==> Declared(catalog, selected[i])
  }

  /** The operations of the selection, in its order. */
  function Operations(catalog: map<string, string>, selected: seq<string>): seq<string>
    requires AllDeclared(catalog, selected)
  {
    seq(|selected|, i requires 0 <= i < |selected| => catalog[selected[i]])
  }

  predicate Hydrates(tools: seq<Tool>, t: nat, operation: string) {
    t < |tools| && OperationId(tools[t]) == Some(operation)
  }

  /** Exactly one tool carries the operation. */
  ghost predicate HydratedOnce(tools: seq<Tool>, operation: string) {
    && (exists t :: Hydrates(tools, t, operation))
    && (forall t, u :: Hydrates(tools, t, operation) && Hydrates(tools, u, operation) ==> t == u)
  }

  ghost predicate Selectable(tools: seq<Tool>, catalog: map<string, string>, selected: seq<string>) {
    && AllDeclared(catalog, selected)
    && Distinct(Operations(catalog, selected))
    && forall i :: 0 <= i < |selected| ==> HydratedOnce(tools, catalog[selected[i]])
  }

  /** Each error names a reason that is there; the missing operations are all named. */
  ghost predicate Explains(tools: seq<Tool>, catalog: map<string, string>, selected: seq<string>, e: SelectionError) {
    match e
    case Undeclared(key) => key in selected && !Declared(catalog, key)
    case SelectedTwice(operation) =>
      exists i, j :: 0 <= i < j < |selected| && Declared(catalog, selected[i]) && Declared(catalog, selected[j])
                     && catalog[selected[i]] == operation == catalog[selected[j]]
    case HydratedTwice(operation) =>
      && AllDeclared(catalog, selected) && operation in Operations(catalog, selected)
      && exists t: nat, u: nat :: t < u && Hydrates(tools, t, operation) && Hydrates(tools, u, operation)
    case NotHydrated(operations) =>
      && AllDeclared(catalog, selected) && operations != []
      && forall o :: o in operations <==> o in Operations(catalog, selected) && !exists t :: Hydrates(tools, t, o)
  }

  /** The distinct operations of the selection; a Set that remembers insertion order. */
  method SelectedOperations(catalog: map<string, string>, selected: seq<string>)
    returns (r: Result<seq<string>, SelectionError>)
    ensures r.Success? <==> AllDeclared(catalog, selected) && Distinct(Operations(catalog, selected))
    ensures r.Success? ==> r.value == Operations(catalog, selected)
    ensures r.Failure? ==> Explains([], catalog, selected, r.error) && !r.error.HydratedTwice? && !r.error.NotHydrated?
  {
    var operations: seq<string> := [];
    for i := 0 to |selected|
      invariant AllDeclared(catalog, selected[..i])
      invariant operations == Operations(catalog, selected[..i]) && Distinct(operations)
    {
      var key := selected[i];
      if key !in catalog || catalog[key] == "" {
        return Failure(Undeclared(key));
      }
      var operation := catalog[key];
      assert selected[..i + 1] == selected[..i] + [key];
      if operation in operations {
        var j :| 0 <= j < |operations| && operations[j] == operation;
        assert selected[..i][j] == selected[j];
        assert Declared(catalog, selected[j]) && Declared(catalog, selected[i]);
        if AllDeclared(catalog, selected) {
          assert Operations(catalog, selected)[j] == Operations(catalog, selected)[i];
        }
        return Failure(SelectedTwice(operation));
      }
      operations := operations + [operation];
    }
    assert selected[..|selected|] == selected;
    r := Success(operations);
  }

  /** What the map holds after the first n tools. */
  ghost predicate HydratedFrom(tools: seq<Tool>, n: nat, operations: seq<string>, hydrated: map<string, Tool>) {
    && n <= |tools|
    && (forall o :: o in hydrated ==>
        o in operations && exists t: nat :: t < n && Hydrates(tools, t, o) && hydrated[o] == tools[t])
    && (forall t: nat, o :: t < n && Hydrates(tools, t, o) && o in operations ==> o in hydrated)
    && (forall t: nat, u: nat, o :: t < u < n && o in operations ==> !(Hydrates(tools, t, o) && Hydrates(tools, u, o)))
  }

  method Hydrate(tools: seq<Tool>, operations: seq<string>) returns (r: Result<map<string, Tool>, SelectionError>)
    ensures r.Success? ==> HydratedFrom(tools, |tools|, operations, r.value)
    ensures r.Failure? ==> r.error.HydratedTwice? && r.error.operation in operations
                           && exists t: nat, u: nat ::
                               t < u && Hydrates(tools, t, r.error.operation) && Hydrates(tools, u, r.error.operation)
  {
    var hydrated: map<string, Tool> := map[];
    for n := 0 to |tools|
      invariant HydratedFrom(tools, n, operations, hydrated)
    {
      var id := OperationId(tools[n]);
      if id.Some? && id.value in operations {
        assert Hydrates(tools, n, id.value);
        if id.value in hydrated {
          return Failure(HydratedTwice(id.value));
        }
        hydrated := hydrated[id.value := tools[n]];
      }
    }
    r := Success(hydrated);
  }

  function Unhydrated(operations: seq<string>, hydrated: map<string, Tool>): seq<string> {
    if operations == [] then []
    else (if operations[0] in hydrated then [] else [operations[0]]) + Unhydrated(operations[1..], hydrated)
  }

  lemma {:induction false} UnhydratedMembers(operations: seq<string>, hydrated: map<string, Tool>)
    ensures forall o :: o in Unhydrated(operations, hydrated) <==> o in operations && o !in hydrated
  {
    if operations != [] {
      UnhydratedMembers(operations[1..], hydrated);
      assert operations == [operations[0]] + operations[1..];
    }
  }

  lemma HydratedMeansOnce(tools: seq<Tool>, operations: seq<string>, hydrated: map<string, Tool>, o: string)
    requires HydratedFrom(tools, |tools|, operations, hydrated) && o in operations
    ensures o in hydrated ==> HydratedOnce(tools, o) && hydrated[o] in tools && OperationId(hydrated[o]) == Some(o)
    ensures o !in hydrated ==> !exists t :: Hydrates(tools, t, o)
  {
    if o in hydrated {
      var t: nat :| t < |tools| && Hydrates(tools, t, o) && hydrated[o] == tools[t];
    }
  }

  /** Succeeds exactly for a selectable selection and then returns its tools position by position; every
      operation is found in the map when the result is built. */
  method Select(tools: seq<Tool>, catalog: map<string, string>, selected: seq<string>)
    returns (r: Result<seq<Tool>, SelectionError>)
    ensures r.Success? <==> Selectable(tools, catalog, selected)
    ensures r.Success? ==> |r.value| == |selected|
                           && forall i :: 0 <= i < |selected| ==>
                                r.value[i] in tools && OperationId(r.value[i]) == Some(catalog[selected[i]])
    ensures r.Failure? ==> Explains(tools, catalog, selected, r.error)
  {
    var operations :- SelectedOperations(catalog, selected);
    var hydration := Hydrate(tools, operations);
    if hydration.Failure? {
      var i :| 0 <= i < |operations| && operations[i] == hydration.error.operation;
      assert !HydratedOnce(tools, catalog[selected[i]]);
      return Failure(hydration.error);
    }
    var hydrated := hydration.value;
    var missing := Unhydrated(operations, hydrated);
    UnhydratedMembers(operations, hydrated);
    forall o | o in operations
      ensures o in hydrated ==> HydratedOnce(tools, o) && hydrated[o] in tools && OperationId(hydrated[o]) == Some(o)
      ensures o !in hydrated ==> !exists t :: Hydrates(tools, t, o)
    {
      HydratedMeansOnce(tools, operations, hydrated, o);
    }
    if |missing| > 0 {
      assert missing[0] in missing;
      var i :| 0 <= i < |operations| && operations[i] == missing[0];
      assert !HydratedOnce(tools, catalog[selected[i]]);
      return Failure(NotHydrated(missing));
    }
    var chosen: seq<Tool> := [];
    for i := 0 to |operations|
      invariant |chosen| == i
      invariant forall j :: 0 <= j < i ==> operations[j] in hydrated && chosen[j] == hydrated[operations[j]]
    {
      assert operations[i] !in missing;
      chosen := chosen + [hydrated[operations[i]]];
    }
    assert forall i :: 0 <= i < |selected| ==> operations[i] == catalog[selected[i]] && operations[i] in operations;
    r := Success(chosen);
  }
}
