/**
 * The service's pure helpers: the data-source id and name derived from the
 * colon-delimited component ids, the display name rebuilt from a normalised
 * segment, and the discovery of the single Snowflake component a GoodData output
 * port depends on.
 */
module Naming {
  import opened Wrappers
  import opened Text
  import opened Snowflake
  import opened Descriptor

  // ---------------------------------------------------------------- data-source id and name

  /**
   * `_compute_data_source_id`: the component id's segments from the fourth on (the
   * component's own trailing segments included), then `datasource`, then the
   * dependency id's segments from the seventh on, joined with `_`.
   */
  function DataSourceId(componentId: string, dependencyId: string): string
  {
    Join(Drop(Split(componentId, ':'), 3) + ["datasource"] + Drop(Split(dependencyId, ':'), 6), "_")
  }

  /**
   * When neither id contains `_`, the data-source id splits back on `_` into exactly
   * the segments it was built from: the id is determined by, and determines, them.
   */
  lemma DataSourceIdSegments(componentId: string, dependencyId: string)
    requires '_' !in componentId && '_' !in dependencyId
    ensures Split(DataSourceId(componentId, dependencyId), '_') ==
      Drop(Split(componentId, ':'), 3) + ["datasource"] + Drop(Split(dependencyId, ':'), 6)
  {
    var a := Drop(Split(componentId, ':'), 3);
    var b := Drop(Split(dependencyId, ':'), 6);
    SplitPiecesWithin(componentId, ':', '_');
    SplitPiecesWithin(dependencyId, ':', '_');
    var parts := a + ["datasource"] + b;
    forall i | 0 <= i < |parts| ensures '_' !in parts[i] {
      if i < |a| {
        assert parts[i] == Split(componentId, ':')[3 + i];
      } else if i > |a| {
        assert parts[i] == Split(dependencyId, ':')[6 + (i - |a| - 1)];
      }
    }
    SplitJoin(parts, '_');
  }

  /** `_rebuild_name_from_normalized_string`: dashes become spaces, then `str.title()`. */
  function RebuildName(normalized: string): (r: string)
    ensures |r| == |normalized| && '-' !in r
    ensures forall i :: 0 <= i < |r| ==> (r[i] == ' ' <==> normalized[i] == '-' || normalized[i] == ' ')
    // every run of letters starts upper case and continues lower case
    ensures forall i :: 0 <= i < |r| && IsLetter(normalized[i]) ==>
      r[i] == (if i > 0 && IsLetter(normalized[i - 1]) then LowerChar(normalized[i]) else UpperChar(normalized[i]))
    ensures forall i :: 0 <= i < |r| && !IsLetter(normalized[i]) && normalized[i] != '-' ==> r[i] == normalized[i]
  {
    var spaced := Replace(normalized, '-', ' ');
    assert forall i :: 0 <= i < |spaced| ==> IsLetter(spaced[i]) == IsLetter(normalized[i]);
    assert forall i :: 0 <= i < |spaced| ==>
      (if IsLetter(spaced[i]) then IsLetter(Title(spaced)[i]) else Title(spaced)[i] == spaced[i]) by {
      forall i | 0 <= i < |spaced|
        ensures if IsLetter(spaced[i]) then IsLetter(Title(spaced)[i]) else Title(spaced)[i] == spaced[i]
      {
        TitleCharKeepsLetters(spaced[i], i > 0 && IsLetter(spaced[i - 1]));
      }
    }
    Title(spaced)
  }

  /** Rebuilding an already rebuilt name changes nothing. */
  lemma RebuildNameIdempotent(normalized: string)
    ensures RebuildName(RebuildName(normalized)) == RebuildName(normalized)
  {
    var r := RebuildName(normalized);
    assert Replace(r, '-', ' ') == r;
    TitleIdempotent(Replace(normalized, '-', ' '));
  }

  /**
   * `_compute_fully_qualified_name`: the rebuilt domain and product name, `V` and
   * the major version, then the component's name. An id with fewer than six
   * segments raises `IndexError`.
   */
  function FullyQualifiedName(c: Component): (r: Result<string, PyException>)
    ensures r.Failure? <==> |Split(c.id, ':')| < 6
    ensures r.Failure? ==> r.error == IndexError
    ensures r.Success? ==> EndsWith(r.value, " - " + c.name)
  {
    var pieces := Split(c.id, ':');
    if |pieces| < 6 then Failure(IndexError)
    else Success(RebuildName(pieces[3]) + " - " + RebuildName(pieces[4]) + " - V" + pieces[5] + " - " + c.name)
  }

  /** For an id written as colon-joined segments, the name reads the fourth to sixth segments. */
  lemma FullyQualifiedNameOfSegments(c: Component, segments: seq<string>)
    requires |segments| >= 6 && c.id == Join(segments, ":")
    requires forall i :: 0 <= i < |segments| ==> ':' !in segments[i]
    ensures FullyQualifiedName(c) ==
      Success(RebuildName(segments[3]) + " - " + RebuildName(segments[4]) + " - V" + segments[5] + " - " + c.name)
  {
    SplitJoin(segments, ':');
  }

  /**
   * `_compute_data_source_name`: the component's fully qualified name (derived from
   * its id only when the descriptor gives none), then ` - Data Source - ` and the
   * dependency's name.
   */
  function DataSourceName(c: Component, dependencyName: string): (r: Result<string, PyException>)
    ensures r.Failure? <==> c.fullyQualifiedName.None? && |Split(c.id, ':')| < 6
    ensures r.Success? ==> EndsWith(r.value, " - Data Source - " + dependencyName)
    ensures r.Success? && c.fullyQualifiedName.Some? ==>
      r.value[..|r.value| - |" - Data Source - " + dependencyName|] == c.fullyQualifiedName.value
    ensures r.Success? && c.fullyQualifiedName.None? ==>
      r.value[..|r.value| - |" - Data Source - " + dependencyName|] == FullyQualifiedName(c).value
  {
    var fqn := if c.fullyQualifiedName.Some? then Success(c.fullyQualifiedName.value) else FullyQualifiedName(c);
    match fqn
    case Failure(e) => Failure(e)
    case Success(name) =>
      var r := name + " - Data Source - " + dependencyName;
      assert r[..|name|] == name;
      Success(r)
  }

  // ---------------------------------------------------------------- Snowflake dependencies

  const SnowflakeOutputPortTemplate := "urn:dmb:utm:snowflake-outputport-template:0.0.0"
  const SnowflakeStorageTemplate := "urn:dmb:utm:snowflake-storage-template:0.0.0"

  /** A Snowflake output port or storage area, recognised by kind and use-case template together. */
  predicate IsSnowflakeComponent(c: Component)
  {
    || (c.kind == OutputPortKind && c.useCaseTemplateId == SnowflakeOutputPortTemplate)
    || (c.kind == StorageAreaKind && c.useCaseTemplateId == SnowflakeStorageTemplate)
  }

  /**
   * The dependencies that resolve to a component of the data product and are
   * Snowflake components, in the order they are declared.
   */
  function SnowflakeDependencies(components: seq<Component>, dependsOn: seq<string>): (r: seq<Component>)
    ensures |r| <= |dependsOn|
    ensures forall c :: c in r <==>
      exists i :: 0 <= i < |dependsOn| && FindComponent(components, dependsOn[i]) == Some(c) && IsSnowflakeComponent(c)
    decreases |dependsOn|
  {
    if dependsOn == [] then []
    else
      var rest := SnowflakeDependencies(components, dependsOn[1..]);
      assert forall i :: 0 < i < |dependsOn| ==> dependsOn[i] == dependsOn[1..][i - 1];
      var found := FindComponent(components, dependsOn[0]);
      if found.Some? && IsSnowflakeComponent(found.value) then [found.value] + rest else rest
  }

  /** The lookup works dependency by dependency: it distributes over concatenation, so declaration order is kept. */
  lemma {:induction false} SnowflakeDependenciesAppend(components: seq<Component>, a: seq<string>, b: seq<string>)
    ensures SnowflakeDependencies(components, a + b)
         == SnowflakeDependencies(components, a) + SnowflakeDependencies(components, b)
    decreases |a|
  {
    if a == [] {
      assert a + b == b;
    } else {
      assert (a + b)[0] == a[0] && (a + b)[1..] == a[1..] + b;
      SnowflakeDependenciesAppend(components, a[1..], b);
    }
  }

  function NoDependencyMessage(id: string): string
  {
    "Component " + id + " must have at least one dependency on a Snowflake component (Storage Area or Output Port) but has none."
  }

  /**
   * `_find_snowflake_dependencies`: an error naming the component when it declares
   * no dependency at all, otherwise its Snowflake dependencies (possibly none).
   */
  function FindSnowflakeDependencies(c: Component, dp: DataProduct): (r: Result<seq<Component>, seq<string>>)
    ensures r.Failure? <==> c.dependsOn == []
    ensures r.Failure? ==> r.error == [NoDependencyMessage(c.id)]
    ensures r.Success? ==> forall d :: d in r.value <==>
      exists i :: 0 <= i < |c.dependsOn| && GetComponentById(dp, c.dependsOn[i]) == Some(d) && IsSnowflakeComponent(d)
  {
    if c.dependsOn == [] then Failure([NoDependencyMessage(c.id)])
    else Success(SnowflakeDependencies(dp.components, c.dependsOn))
  }

  /** The outcome of `_extract_snowflake_dependency`. */
  datatype Extraction =
    | Extracted(typed: Option<SnowflakeComponent>)   // `None` when the typed lookup finds nothing
    | Rejected(errors: seq<string>)                  // a `ValidationError`
    | ExtractRaised(exception: PyException)          // indexing an empty match list

  /** The components' ids, in order. */
  function ComponentIds(cs: seq<Component>): seq<string>
  {
    seq(|cs|, i requires 0 <= i < |cs| => cs[i].id)
  }

  function TooManyMessage(id: string, matches: seq<Component>): string
  {
    "Component " + id + " must have exactly one dependency on a Snowflake component (Storage Area or Output Port) but has "
      + NatToString(|matches|) + ": " + PyStrList(ComponentIds(matches))
  }

  /**
   * `_extract_snowflake_dependency`: the single Snowflake dependency, typed by its
   * kind. No declared dependency and more than one match are errors; no match at
   * all raises `IndexError`.
   */
  function ExtractSnowflakeDependency(c: Component, dp: DataProduct): (r: Extraction)
    ensures c.dependsOn == [] ==> r == Rejected([NoDependencyMessage(c.id)])
    ensures c.dependsOn != [] ==>
      var matches := SnowflakeDependencies(dp.components, c.dependsOn);
      && (r.ExtractRaised? <==> |matches| == 0)
      && (r.ExtractRaised? ==> r.exception == IndexError)
      && (|matches| > 1 ==> r == Rejected([TooManyMessage(c.id, matches)]))
  {
    match FindSnowflakeDependencies(c, dp)
    case Failure(errors) => Rejected(errors)
    case Success(matches) =>
      if |matches| > 1 then Rejected([TooManyMessage(c.id, matches)])
      else if |matches| == 0 then ExtractRaised(IndexError)
      else
        var dependencyId := matches[0].id;
        match GetComponentById(dp, dependencyId)
        case None => Rejected(["Dependency " + dependencyId + " was not found"])
        case Some(dependency) =>
          if dependency.kind == StorageAreaKind then Extracted(GetTypedSnowflakeComponent(dp, dependencyId, true))
          else if dependency.kind == OutputPortKind then Extracted(GetTypedSnowflakeComponent(dp, dependencyId, false))
          else Rejected(["Dependency " + dependencyId
                         + " must be a Snowflake component but is neither a Storage Area nor an Output Port"])
  }

  /**
   * The "not found" and "neither kind" errors of the extraction cannot occur: the
   * single match is found again by its id, and it is a storage area or an output port.
   */
  lemma ExtractSingleMatch(c: Component, dp: DataProduct)
    requires c.dependsOn != [] && |SnowflakeDependencies(dp.components, c.dependsOn)| == 1
    ensures var m := SnowflakeDependencies(dp.components, c.dependsOn)[0];
      ExtractSnowflakeDependency(c, dp) == Extracted(GetTypedSnowflakeComponent(dp, m.id, m.kind == StorageAreaKind))
  {
    var m := SnowflakeDependencies(dp.components, c.dependsOn)[0];
    assert m in SnowflakeDependencies(dp.components, c.dependsOn);
    var i :| 0 <= i < |c.dependsOn| && FindComponent(dp.components, c.dependsOn[i]) == Some(m) && IsSnowflakeComponent(m);
    assert GetComponentById(dp, m.id) == Some(m);
  }

  /**
   * A single storage-area match always yields its typed form; a single output-port
   * match yields it exactly when the port carries a data contract.
   */
  lemma ExtractTypedPresence(c: Component, dp: DataProduct)
    requires c.dependsOn != [] && |SnowflakeDependencies(dp.components, c.dependsOn)| == 1
    ensures var m := SnowflakeDependencies(dp.components, c.dependsOn)[0];
      && ExtractSnowflakeDependency(c, dp).Extracted?
      && (ExtractSnowflakeDependency(c, dp).typed.Some? <==> m.kind == StorageAreaKind || m.dataContractSchema.Some?)
      && (ExtractSnowflakeDependency(c, dp).typed.Some? ==> ExtractSnowflakeDependency(c, dp).typed.value.id == m.id)
  {
    ExtractSingleMatch(c, dp);
    var m := SnowflakeDependencies(dp.components, c.dependsOn)[0];
    assert m in SnowflakeDependencies(dp.components, c.dependsOn);
    var i :| 0 <= i < |c.dependsOn| && FindComponent(dp.components, c.dependsOn[i]) == Some(m) && IsSnowflakeComponent(m);
    assert GetComponentById(dp, m.id) == Some(m);
  }
}
