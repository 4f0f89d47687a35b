/**
 * Filter descriptors: a name matched against the request's filter keys, a
 * label, a default value, an optional query strategy, and the select
 * variant's options. `Apply` is the step the table threads its builder through.
 */
module Filters {
  import opened Php
  import opened Query
  import Str

  /** A custom filtering strategy set with `query($callback)`: it receives the builder and the filter's value and returns the builder to continue with. */
  type Strategy = (Builder, Value) -> Builder

  datatype FilterVariant = SelectFilter(options: PhpArray, multiple: bool)
  {
    function TypeName(): string
    {
      "select"
    }

    function Extension(): PhpArray
    {
      [Entry(StrKey("options"), Arr(options)), Entry(StrKey("multiple"), Bool(multiple))]
    }
  }

  class Filter {
    const name: string
    var labelText: string
    var default: Value
    var query: Option<Strategy>
    var variant: FilterVariant

    /** `SelectFilter::make($name)`. */
    constructor Select(name: string)
      ensures this.name == name && labelText == Str.Headline(name)
      ensures default == Null && query == None
      ensures variant == SelectFilter([], false)
    {
      this.name := name;
      labelText := Str.Headline(name);
      default := Null;
      query := None;
      variant := SelectFilter([], false);
    }

    method Label(text: string)
      modifies this
      ensures labelText == text
      ensures default == old(default) && query == old(query) && variant == old(variant)
    {
      labelText := text;
    }

    method Default(value: Value)
      modifies this
      ensures default == value
      ensures labelText == old(labelText) && query == old(query) && variant == old(variant)
      ensures Lookup(ToArray(), StrKey("default")) == Some(value)
    {
      default := value;
      LookupUnique(ToArray(), 3);
    }

    method Query(callback: Strategy)
      modifies this
      ensures query == Some(callback)
      ensures labelText == old(labelText) && default == old(default) && variant == old(variant)
    {
      query := Some(callback);
    }

    method Options(options: PhpArray)
      modifies this
      ensures variant == old(variant).(options := options)
      ensures labelText == old(labelText) && default == old(default) && query == old(query)
      ensures Lookup(ToArray(), StrKey("options")) == Some(Arr(options))
    {
      variant := variant.(options := options);
      LookupUnique(ToArray(), 4);
    }

    method Multiple(multiple: bool := true)
      modifies this
      ensures variant == old(variant).(multiple := multiple)
      ensures labelText == old(labelText) && default == old(default) && query == old(query)
    {
      variant := variant.(multiple := multiple);
    }

    /**
     * `apply($builder, $value)`: the custom strategy when one is set,
     * otherwise one equality condition on the filter's name.
     */
    function Apply(b: Builder, value: Value): (r: Builder)
      reads this
      ensures query.None? ==> r.clauses == b.clauses + [Where(name, value)]
      ensures query.Some? ==> r == query.value(b, value)
    {
      match query
      case Some(strategy) => strategy(b, value)
      case None => b.With(Where(name, value))
    }

    function GetName(): string
    {
      name
    }

    function GetType(): string
      reads this
    {
      variant.TypeName()
    }

    /** `Filter::toArray()`, the part every variant shares. */
    function BaseArray(): PhpArray
      reads this
    {
      [ Entry(StrKey("name"), Str(name)),
        Entry(StrKey("label"), Str(labelText)),
        Entry(StrKey("type"), Str(GetType())),
        Entry(StrKey("default"), default) ]
    }

    /**
     * `SelectFilter::toArray()`: `array_merge(parent::toArray(), [...])`. The
     * select keys never collide with the base keys, so it is the base array
     * followed by options and multiple, with no key twice.
     */
    function ToArray(): (r: PhpArray)
      reads this
      ensures r == BaseArray() + variant.Extension()
      ensures Unique(r)
    {
      ArrayMergeDisjoint(BaseArray(), variant.Extension());
      ArrayMerge(BaseArray(), variant.Extension())
    }
  }

  lemma SelectToArray(f: Filter)
    ensures f.ToArray()
         == [ Entry(StrKey("name"), Str(f.name)),
              Entry(StrKey("label"), Str(f.labelText)),
              Entry(StrKey("type"), Str("select")),
              Entry(StrKey("default"), f.default),
              Entry(StrKey("options"), Arr(f.variant.options)),
              Entry(StrKey("multiple"), Bool(f.variant.multiple)) ]
  {
  }
}
