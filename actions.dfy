/**
 * Action descriptors: a named operation on a row or the table, with a label,
 * icon, link, handler and confirmation flag, and the button variant's style.
 * Actions never touch the query; the table only serialises them.
 */
module Actions {
  import opened Php
  import Str

  /** A PHP closure stored with `action($closure)`; the core never calls it and never serialises it. */
  datatype Closure = Closure(id: nat)

  const DefaultButtonColor := "primary"
  const DefaultButtonSize := "md"

  datatype ActionVariant = ButtonAction(color: Option<string>, size: string)
  {
    function TypeName(): string
    {
      "button"
    }

    function Extension(): PhpArray
    {
      [Entry(StrKey("color"), OptStr(color)), Entry(StrKey("size"), Str(size))]
    }
  }

  class Action {
    const name: string
    var labelText: string
    var icon: Option<string>
    var url: Option<string>
    var handler: Option<Closure>
    var requiresConfirmation: bool
    var variant: ActionVariant

    /** `ButtonAction::make($name)`. */
    constructor Button(name: string)
      ensures this.name == name && labelText == Str.Headline(name)
      ensures icon == None && url == None && handler == None && !requiresConfirmation
      ensures variant == ButtonAction(Some(DefaultButtonColor), DefaultButtonSize)
    {
      this.name := name;
      labelText := Str.Headline(name);
      icon, url, handler := None, None, None;
      requiresConfirmation := false;
      variant := ButtonAction(Some(DefaultButtonColor), DefaultButtonSize);
    }

    method Label(text: string)
      modifies this
      ensures labelText == text
      ensures icon == old(icon) && url == old(url) && handler == old(handler)
      ensures requiresConfirmation == old(requiresConfirmation) && variant == old(variant)
    {
      labelText := text;
    }

    method Icon(icon: string)
      modifies this
      ensures this.icon == Some(icon)
      ensures labelText == old(labelText) && url == old(url) && handler == old(handler)
      ensures requiresConfirmation == old(requiresConfirmation) && variant == old(variant)
    {
      this.icon := Some(icon);
    }

    method Url(url: string)
      modifies this
      ensures this.url == Some(url)
      ensures labelText == old(labelText) && icon == old(icon) && handler == old(handler)
      ensures requiresConfirmation == old(requiresConfirmation) && variant == old(variant)
      ensures Lookup(ToArray(), StrKey("url")) == Some(Str(url))
    {
      this.url := Some(url);
      LookupUnique(ToArray(), 4);
    }

    /** `action($closure)`: stored, never serialised. */
    method Handler(closure: Closure)
      modifies this
      ensures handler == Some(closure)
      ensures labelText == old(labelText) && icon == old(icon) && url == old(url)
      ensures requiresConfirmation == old(requiresConfirmation) && variant == old(variant)
      ensures ToArray() == old(ToArray())
    {
      handler := Some(closure);
    }

    method RequiresConfirmation(confirmation: bool := true)
      modifies this
      ensures requiresConfirmation == confirmation
      ensures labelText == old(labelText) && icon == old(icon) && url == old(url)
      ensures handler == old(handler) && variant == old(variant)
      ensures Lookup(ToArray(), StrKey("requiresConfirmation")) == Some(Bool(confirmation))
    {
      requiresConfirmation := confirmation;
      LookupUnique(ToArray(), 5);
    }

    method Color(color: string)
      modifies this
      ensures variant == old(variant).(color := Some(color))
      ensures labelText == old(labelText) && icon == old(icon) && url == old(url)
      ensures handler == old(handler) && requiresConfirmation == old(requiresConfirmation)
    {
      variant := variant.(color := Some(color));
    }

    method Size(size: string)
      modifies this
      ensures variant == old(variant).(size := size)
      ensures labelText == old(labelText) && icon == old(icon) && url == old(url)
      ensures handler == old(handler) && requiresConfirmation == old(requiresConfirmation)
    {
      variant := variant.(size := size);
    }

    function GetType(): string
      reads this
    {
      variant.TypeName()
    }

    /** `Action::toArray()`, the part every variant shares; the handler is left out. */
    function BaseArray(): PhpArray
      reads this
    {
      [ Entry(StrKey("name"), Str(name)),
        Entry(StrKey("label"), Str(labelText)),
        Entry(StrKey("type"), Str(GetType())),
        Entry(StrKey("icon"), OptStr(icon)),
        Entry(StrKey("url"), OptStr(url)),
        Entry(StrKey("requiresConfirmation"), Bool(requiresConfirmation)) ]
    }

    /**
     * `ButtonAction::toArray()`: `array_merge(parent::toArray(), [...])`. The
     * button keys never collide with the base keys, so it is the base array
     * followed by color and size, with no key twice.
     */
    function ToArray(): (r: PhpArray)
      reads this
      ensures r == BaseArray() + variant.Extension()
      ensures Unique(r)
    {
      ArrayMergeDisjoint(BaseArray(), variant.Extension());
      ArrayMerge(BaseArray(), variant.Extension())
    }
  }

  lemma ButtonToArray(a: Action)
    ensures a.ToArray()
         == [ Entry(StrKey("name"), Str(a.name)),
              Entry(StrKey("label"), Str(a.labelText)),
              Entry(StrKey("type"), Str("button")),
              Entry(StrKey("icon"), OptStr(a.icon)),
              Entry(StrKey("url"), OptStr(a.url)),
              Entry(StrKey("requiresConfirmation"), Bool(a.requiresConfirmation)),
              Entry(StrKey("color"), OptStr(a.variant.color)),
              Entry(StrKey("size"), Str(a.variant.size)) ]
  {
  }
}
