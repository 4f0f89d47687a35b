/**
 * Column descriptors: a name, a label, sort and search flags, and the
 * fields of the text, badge or date variant. The fluent setters update the
 * column in place; `ToArray` is what the table payload carries.
 */
module Columns {
  import opened Php
  import Str

  datatype ColumnVariant =
    | TextColumn(default: Option<string>, truncate: Option<int>)
    | BadgeColumn(color: Option<string>, icon: Option<string>, states: PhpArray)
    | DateColumn(default: Option<string>, format: string, timezone: Option<string>)
  {
    /** `getType()` of the variant's class. */
    function TypeName(): string
    {
      match this
      case TextColumn(_, _) => "text"
      case BadgeColumn(_, _, _) => "badge"
      case DateColumn(_, _, _) => "date"
    }

    /** The array the variant's `toArray()` merges into the base array; a date column's timezone is not part of it. */
    function Extension(): PhpArray
    {
      match this
      case TextColumn(default, truncate) =>
        [Entry(StrKey("default"), OptStr(default)), Entry(StrKey("truncate"), OptInt(truncate))]
      case BadgeColumn(color, icon, states) =>
        [Entry(StrKey("color"), OptStr(color)), Entry(StrKey("icon"), OptStr(icon)), Entry(StrKey("states"), Arr(states))]
      case DateColumn(default, format, _) =>
        [Entry(StrKey("default"), OptStr(default)), Entry(StrKey("format"), Str(format))]
    }
  }

  const DefaultDateFormat := "d/m/Y"

  class Column {
    const name: string
    var labelText: string
    var sortable: bool
    var searchable: bool
    var variant: ColumnVariant

    /** `TextColumn::make($name)`. */
    constructor Text(name: string)
      ensures this.name == name && labelText == Str.Headline(name)
      ensures !sortable && !searchable
      ensures variant == TextColumn(None, None)
    {
      this.name := name;
      labelText := Str.Headline(name);
      sortable, searchable := false, false;
      variant := TextColumn(None, None);
    }

    /** `BadgeColumn::make($name)`. */
    constructor Badge(name: string)
      ensures this.name == name && labelText == Str.Headline(name)
      ensures !sortable && !searchable
      ensures variant == BadgeColumn(None, None, [])
    {
      this.name := name;
      labelText := Str.Headline(name);
      sortable, searchable := false, false;
      variant := BadgeColumn(None, None, []);
    }

    /** `DateColumn::make($name)`. */
    constructor Date(name: string)
      ensures this.name == name && labelText == Str.Headline(name)
      ensures !sortable && !searchable
      ensures variant == DateColumn(None, DefaultDateFormat, None)
    {
      this.name := name;
      labelText := Str.Headline(name);
      sortable, searchable := false, false;
      variant := DateColumn(None, DefaultDateFormat, None);
    }

    method Label(text: string)
      modifies this
      ensures labelText == text
      ensures sortable == old(sortable) && searchable == old(searchable) && variant == old(variant)
    {
      labelText := text;
    }

    method Sortable(sortable: bool := true)
      modifies this
      ensures IsSortable() == sortable
      ensures labelText == old(labelText) && searchable == old(searchable) && variant == old(variant)
    {
      this.sortable := sortable;
    }

    method Searchable(searchable: bool := true)
      modifies this
      ensures IsSearchable() == searchable
      ensures labelText == old(labelText) && sortable == old(sortable) && variant == old(variant)
    {
      this.searchable := searchable;
    }

    function GetName(): string
    {
      name
    }

    function IsSortable(): bool
      reads this
    {
      sortable
    }

    function IsSearchable(): bool
      reads this
    {
      searchable
    }

    function GetType(): (r: string)
      reads this
      ensures r == "text" <==> variant.TextColumn?
      ensures r == "badge" <==> variant.BadgeColumn?
      ensures r == "date" <==> variant.DateColumn?
    {
      variant.TypeName()
    }

    /** `Column::toArray()`, the part every variant shares. */
    function BaseArray(): PhpArray
      reads this
    {
      [ Entry(StrKey("name"), Str(name)),
        Entry(StrKey("label"), Str(labelText)),
        Entry(StrKey("type"), Str(GetType())),
        Entry(StrKey("sortable"), Bool(sortable)),
        Entry(StrKey("searchable"), Bool(searchable)) ]
    }

    /**
     * The variant's `toArray()`: `array_merge(parent::toArray(), [...])`. The
     * variant's keys never collide with the base keys, so it is the base array
     * followed by the variant's entries, with no key twice.
     */
    function ToArray(): (r: PhpArray)
      reads this
      ensures r == BaseArray() + variant.Extension()
      ensures Unique(r)
    {
      ArrayMergeDisjoint(BaseArray(), variant.Extension());
      ArrayMerge(BaseArray(), variant.Extension())
    }

    /** `default($value)` of a text or date column. */
    method Default(value: string)
      requires variant.TextColumn? || variant.DateColumn?
      modifies this
      ensures variant == old(variant).(default := Some(value))
      ensures labelText == old(labelText) && sortable == old(sortable) && searchable == old(searchable)
      ensures Lookup(ToArray(), StrKey("default")) == Some(Str(value))
    {
      variant := variant.(default := Some(value));
      ExtensionLookup(this, 0);
    }

    method Truncate(length: int)
      requires variant.TextColumn?
      modifies this
      ensures variant == old(variant).(truncate := Some(length))
      ensures labelText == old(labelText) && sortable == old(sortable) && searchable == old(searchable)
    {
      variant := variant.(truncate := Some(length));
    }

    method Color(color: string)
      requires variant.BadgeColumn?
      modifies this
      ensures variant == old(variant).(color := Some(color))
      ensures labelText == old(labelText) && sortable == old(sortable) && searchable == old(searchable)
    {
      variant := variant.(color := Some(color));
    }

    method Icon(icon: string)
      requires variant.BadgeColumn?
      modifies this
      ensures variant == old(variant).(icon := Some(icon))
      ensures labelText == old(labelText) && sortable == old(sortable) && searchable == old(searchable)
    {
      variant := variant.(icon := Some(icon));
    }

    method States(states: PhpArray)
      requires variant.BadgeColumn?
      modifies this
      ensures variant == old(variant).(states := states)
      ensures labelText == old(labelText) && sortable == old(sortable) && searchable == old(searchable)
      ensures Lookup(ToArray(), StrKey("states")) == Some(Arr(states))
    {
      variant := variant.(states := states);
      ExtensionLookup(this, 2);
    }

    method Format(format: string)
      requires variant.DateColumn?
      modifies this
      ensures variant == old(variant).(format := format)
      ensures labelText == old(labelText) && sortable == old(sortable) && searchable == old(searchable)
    {
      variant := variant.(format := format);
    }

    method Timezone(timezone: string)
      requires variant.DateColumn?
      modifies this
      ensures variant == old(variant).(timezone := Some(timezone))
      ensures labelText == old(labelText) && sortable == old(sortable) && searchable == old(searchable)
      ensures ToArray() == old(ToArray())
    {
      variant := variant.(timezone := Some(timezone));
    }
  }

  /** Each entry the variant adds is read back from `toArray()` with the variant's value. */
  lemma ExtensionLookup(c: Column, i: nat)
    requires i < |c.variant.Extension()|
    ensures Lookup(c.ToArray(), c.variant.Extension()[i].key) == Some(c.variant.Extension()[i].val)
  {
    var ext := c.variant.Extension();
    LookupUnique(ext, i);
    ArrayMergeLookup(c.BaseArray(), ext, ext[i].key.s);
  }

  lemma TextToArray(c: Column)
    requires c.variant.TextColumn?
    ensures c.ToArray()
         == [ Entry(StrKey("name"), Str(c.name)),
              Entry(StrKey("label"), Str(c.labelText)),
              Entry(StrKey("type"), Str("text")),
              Entry(StrKey("sortable"), Bool(c.sortable)),
              Entry(StrKey("searchable"), Bool(c.searchable)),
              Entry(StrKey("default"), OptStr(c.variant.default)),
              Entry(StrKey("truncate"), OptInt(c.variant.truncate)) ]
  {
  }

  lemma BadgeToArray(c: Column)
    requires c.variant.BadgeColumn?
    ensures c.ToArray()
         == [ Entry(StrKey("name"), Str(c.name)),
              Entry(StrKey("label"), Str(c.labelText)),
              Entry(StrKey("type"), Str("badge")),
              Entry(StrKey("sortable"), Bool(c.sortable)),
              Entry(StrKey("searchable"), Bool(c.searchable)),
              Entry(StrKey("color"), OptStr(c.variant.color)),
              Entry(StrKey("icon"), OptStr(c.variant.icon)),
              Entry(StrKey("states"), Arr(c.variant.states)) ]
  {
  }

  lemma DateToArray(c: Column)
    requires c.variant.DateColumn?
    ensures c.ToArray()
         == [ Entry(StrKey("name"), Str(c.name)),
              Entry(StrKey("label"), Str(c.labelText)),
              Entry(StrKey("type"), Str("date")),
              Entry(StrKey("sortable"), Bool(c.sortable)),
              Entry(StrKey("searchable"), Bool(c.searchable)),
              Entry(StrKey("default"), OptStr(c.variant.default)),
              Entry(StrKey("format"), Str(c.variant.format)) ]
    ensures !Has(c.ToArray(), StrKey("timezone"))
  {
    assert KeysOf(c.ToArray()) == [StrKey("name"), StrKey("label"), StrKey("type"), StrKey("sortable"),
                                   StrKey("searchable"), StrKey("default"), StrKey("format")];
  }
}
