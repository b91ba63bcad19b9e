/** aws/filters.go: filters applied to a configuration, and the Tag builder. */
module AwsFilters {
  import opened Wrappers
  import opened Errors
  import opened Cluster
  import opened Ec2

  /** The exported part of a Config that a filter may change. */
  datatype Settings = Settings(filters: seq<AwsFilter>, portRange: PortRange)

  /** A `Filter func(cfg *Config) error`: either the Tag builder or any other
      closure, given by its effect on the settings and the error it returns. */
  datatype Filter =
    | Tag(name: string, value: string)
    | Custom(run: Settings -> (Settings, Option<Error>))

  const TagPrefix := "tag:"

  /** The provider filter matching instances whose tag `name` equals `value`. */
  function TagFilter(name: string, value: string): (f: AwsFilter)
    ensures |f.name| == |TagPrefix| + |name|
    ensures f.name[..|TagPrefix|] == TagPrefix && f.name[|TagPrefix|..] == name
    ensures f.values == [value]
  {
    AwsFilter(TagPrefix + name, [value])
  }

  /** Applies one filter to the settings: the new settings and the returned error. */
  function ApplyFilter(f: Filter, s: Settings): (r: (Settings, Option<Error>))
    ensures f.Tag? ==> r.1 == None && r.0.portRange == s.portRange
    ensures f.Tag? ==> |r.0.filters| == |s.filters| + 1 && r.0.filters[..|s.filters|] == s.filters
    ensures f.Custom? ==> r == f.run(s)
  {
    match f
    case Tag(name, value) => (Settings(s.filters + [TagFilter(name, value)], s.portRange), None)
    case Custom(run) => run(s)
  }

  /** One application of Tag appends exactly one filter named "tag:" + name
      with the single value `value`, keeps every earlier filter and the port
      range, and never returns an error. */
  lemma TagAppendsOneFilter(name: string, value: string, s: Settings)
    ensures var (s', e) := ApplyFilter(Tag(name, value), s);
      && e == None
      && |s'.filters| == |s.filters| + 1
      && s'.filters[..|s.filters|] == s.filters
      && s'.filters[|s.filters|].name == "tag:" + name
      && s'.filters[|s.filters|].values == [value]
      && s'.portRange == s.portRange
  {
    var s' := ApplyFilter(Tag(name, value), s).0;
    assert s'.filters[..|s.filters|] == s.filters;
  }

  /** Every filter is a Tag builder. */
  predicate AllTags(fs: seq<Filter>)
  {
    forall i :: 0 <= i < |fs| ==> fs[i].Tag?
  }

  /** SetFilters' loop: applies the filters left to right and stops at the
      first one that returns an error; that filter's own effect is kept. */
  function ApplyFilters(fs: seq<Filter>, s: Settings): (r: (Settings, Option<Error>))
    ensures fs == [] ==> r == (s, None)
    ensures AllTags(fs) ==> r.1 == None && r.0.portRange == s.portRange && |r.0.filters| == |s.filters| + |fs|
    decreases |fs|
  {
    if fs == [] then (s, None)
    else
      var (s1, e) := ApplyFilter(fs[0], s);
      if e.Some? then (s1, e) else ApplyFilters(fs[1..], s1)
  }

  /** Applying one more filter after an error-free prefix. */
  lemma {:induction false} ApplyFiltersSnoc(fs: seq<Filter>, s: Settings, i: nat)
    requires i < |fs|
    requires ApplyFilters(fs[..i], s).1 == None
    ensures ApplyFilters(fs[..i + 1], s) == ApplyFilter(fs[i], ApplyFilters(fs[..i], s).0)
    decreases i
  {
    if i > 0 {
      var (s1, e) := ApplyFilter(fs[0], s);
      assert fs[..i][0] == fs[0] && fs[..i][1..] == fs[1..][..i - 1];
      assert fs[..i + 1][0] == fs[0] && fs[..i + 1][1..] == fs[1..][..i];
      ApplyFiltersSnoc(fs[1..], s1, i - 1);
    }
  }

  /** If filter k is the first to fail, the outcome is the state it left and
      its error: no later filter is applied, every earlier effect is kept. */
  lemma {:induction false} StopsAtFirstError(fs: seq<Filter>, s: Settings, k: nat)
    requires k < |fs|
    requires ApplyFilters(fs[..k], s).1 == None
    requires ApplyFilter(fs[k], ApplyFilters(fs[..k], s).0).1.Some?
    ensures ApplyFilters(fs, s) == ApplyFilter(fs[k], ApplyFilters(fs[..k], s).0)
    decreases k
  {
    if k > 0 {
      var (s1, e) := ApplyFilter(fs[0], s);
      assert fs[..k][0] == fs[0] && fs[..k][1..] == fs[1..][..k - 1];
      StopsAtFirstError(fs[1..], s1, k - 1);
    }
  }

  /** The filters a list of Tag builders contributes, in order. */
  function TagFilters(fs: seq<Filter>): seq<AwsFilter>
    requires forall i :: 0 <= i < |fs| ==> fs[i].Tag?
  {
    if fs == [] then [] else [TagFilter(fs[0].name, fs[0].value)] + TagFilters(fs[1..])
  }

  /** A list of Tag builders appends one filter per tag, in call order, and
      records no error. */
  lemma {:induction false} AllTagsAppendInOrder(fs: seq<Filter>, s: Settings)
    requires forall i :: 0 <= i < |fs| ==> fs[i].Tag?
    ensures ApplyFilters(fs, s) == (Settings(s.filters + TagFilters(fs), s.portRange), None)
    decreases |fs|
  {
    if fs != [] {
      var t := TagFilter(fs[0].name, fs[0].value);
      var s1 := Settings(s.filters + [t], s.portRange);
      assert ApplyFilter(fs[0], s) == (s1, None);
      assert ApplyFilters(fs, s) == ApplyFilters(fs[1..], s1);
      AllTagsAppendInOrder(fs[1..], s1);
      assert TagFilters(fs) == [t] + TagFilters(fs[1..]);
      assert s1.filters + TagFilters(fs[1..]) == s.filters + TagFilters(fs);
    } else {
      assert s.filters + TagFilters(fs) == s.filters;
    }
  }

  /** `SetFilters(Tag(a, x), Tag(b, y))` appends the tag:a filter, then tag:b. */
  lemma TwoTagsInCallOrder(a: string, x: string, b: string, y: string, s: Settings)
    ensures ApplyFilters([Tag(a, x), Tag(b, y)], s)
      == (Settings(s.filters + [TagFilter(a, x), TagFilter(b, y)], s.portRange), None)
  {
    var fs := [Tag(a, x), Tag(b, y)];
    var tail := fs[1..];
    assert tail == [Tag(b, y)] && tail[1..] == [];
    assert TagFilters(tail) == [TagFilter(b, y)];
    assert TagFilters(fs) == [TagFilter(a, x), TagFilter(b, y)];
    AllTagsAppendInOrder(fs, s);
  }

  /** Applying the same Tag builder twice appends two identical "tag:" + name
      filters: each application is independent of the ones before. */
  lemma TagAppliedTwice(name: string, value: string, s: Settings)
    ensures ApplyFilters([Tag(name, value), Tag(name, value)], s).0.filters
      == s.filters + [TagFilter(name, value), TagFilter(name, value)]
  {
    TwoTagsInCallOrder(name, value, name, value, s);
  }

  // The builder as the Go code writes it. Its closure reassigns the captured
  // variable `name` on every call and stores a pointer to that variable as the
  // filter's name, so a second call prefixes "tag:" again and renames the
  // filter appended by the first call as well.

  /** A Go string variable whose address may be taken. */
  class NameVar {
    var value: string

    constructor (value: string)
      ensures this.value == value
    {
      this.value := value;
    }
  }

  /** A types.Filter whose Name is a pointer to a shared variable. */
  datatype AliasedFilter = AliasedFilter(name: NameVar, values: seq<string>)

  /** The closure `Tag(name, value)` returns, with its captured variables. */
  class TagClosure {
    const name: NameVar
    const value: string

    constructor (name: string, value: string)
      ensures fresh(this.name) && this.name.value == name && this.value == value
    {
      this.name := new NameVar(name);
      this.value := value;
    }

    method Apply(filters: seq<AliasedFilter>) returns (r: seq<AliasedFilter>)
      modifies name
      ensures name.value == TagPrefix + old(name.value)
      ensures r == filters + [AliasedFilter(name, [value])]
    {
      name.value := TagPrefix + name.value;
      r := filters + [AliasedFilter(name, [value])];
    }
  }

  /** Applying one Tag("Foo", "Bar") closure twice, as written: both appended
      filters end up named "tag:tag:Foo". */
  method TagAppliedTwiceAsWritten() returns (first: string, second: string)
    ensures first == "tag:tag:Foo" && second == "tag:tag:Foo"
  {
    var t := new TagClosure("Foo", "Bar");
    var fs := t.Apply([]);
    fs := t.Apply(fs);
    first, second := fs[0].name.value, fs[1].name.value;
  }
}
