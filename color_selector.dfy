/** The model colour picker: a row of colour options of which one is marked active, the
    colour remembered in `localStorage` under two keys, and the viewer's
    `updateModelColor` called when an option is clicked. */
module ColorSelector {
  import opened Wrappers
  import opened Browser

  const Active := "active"
  const SelectedKey := "selectedColor"
  const ModelColorKey := "morfis_model_color"

  /** The colour to restore on load: `selectedColor` when it is set and not empty, else
      `morfis_model_color`. */
  function SavedColor(selected: Option<string>, modelColor: Option<string>): (c: Option<string>)
    ensures Truthy(selected) ==> c == selected
    ensures !Truthy(selected) ==> c == modelColor
  {
    OrOpt(selected, modelColor)
  }

  /** A `.color-option` element: its `data-color` and its classes. */
  class ColorOption {
    const color: string
    var classes: set<string>

    constructor (color: string, classes: set<string>)
      ensures this.color == color && this.classes == classes
    {
      this.color := color;
      this.classes := classes;
    }
  }

  class Selector {
    const options: seq<ColorOption>
    const storage: LocalStorage
    /** Whether `window.updateModelColor` is defined. */
    const hasUpdater: bool
    /** The colours passed to `updateModelColor`, in order. */
    var colorUpdates: seq<string>

    constructor (options: seq<ColorOption>, storage: LocalStorage, hasUpdater: bool)
      ensures this.options == options && this.storage == storage && this.hasUpdater == hasUpdater
      ensures colorUpdates == []
    {
      this.options := options;
      this.storage := storage;
      this.hasUpdater := hasUpdater;
      colorUpdates := [];
    }

    /** Exactly `option` among the options has the `active` class. */
    predicate OnlyActive(option: ColorOption)
      reads options
    {
      forall o :: o in options ==> (Active in o.classes <==> o == option)
    }

    /** `setActiveColor(option)`: `active` is removed from every option, then added to
        `option`; no other class changes. */
    method SetActiveColor(option: ColorOption)
      requires option in options
      modifies set o | o in options
      ensures OnlyActive(option)
      ensures forall o :: o in options ==> o.classes - {Active} == old(o.classes) - {Active}
      ensures colorUpdates == old(colorUpdates)
    {
      for i := 0 to |options|
        invariant forall o :: o in options[..i] ==> Active !in o.classes
        invariant forall o :: o in options ==> o.classes - {Active} == old(o.classes) - {Active}
        invariant forall o :: o in options && o !in options[..i] ==> o.classes == old(o.classes)
      {
        var opt := options[i];
        assert options[..i + 1] == options[..i] + [opt];
        opt.classes := opt.classes - {Active};
      }
      option.classes := option.classes + {Active};
    }

    /** The page-load activation: when a colour is saved, every option showing it is made
        active in turn, so the last such option ends as the only active one; when none
        shows it, or none is saved, no option changes. */
    method RestoreSavedColor()
      modifies set o | o in options
      ensures var saved := SavedColor(storage.GetItem(SelectedKey), storage.GetItem(ModelColorKey));
        (exists o :: o in options && Truthy(saved) && o.color == saved.value) ==>
          exists i :: 0 <= i < |options| && options[i].color == saved.value && OnlyActive(options[i]) &&
            forall j :: i < j < |options| ==> options[j].color != saved.value
      ensures var saved := SavedColor(storage.GetItem(SelectedKey), storage.GetItem(ModelColorKey));
        !(exists o :: o in options && Truthy(saved) && o.color == saved.value) ==>
          forall o :: o in options ==> o.classes == old(o.classes)
      ensures colorUpdates == old(colorUpdates)
    {
      var saved := SavedColor(storage.GetItem(SelectedKey), storage.GetItem(ModelColorKey));
      if !Truthy(saved) {
        return;
      }
      ghost var last := -1;
      for i := 0 to |options|
        invariant -1 <= last < i
        invariant last == -1 <==> forall o :: o in options[..i] ==> o.color != saved.value
        invariant last >= 0 ==> options[last].color == saved.value && OnlyActive(options[last])
        invariant forall j :: last < j < i ==> options[j].color != saved.value
        invariant last == -1 ==> forall o :: o in options ==> o.classes == old(o.classes)
      {
        var opt := options[i];
        assert options[..i + 1] == options[..i] + [opt];
        if opt.color == saved.value {
          SetActiveColor(opt);
          last := i;
        }
      }
      assert options[..|options|] == options;
    }

    /** A click on `option`: it becomes the only active option, its colour is stored
        under both keys and, when the viewer provides `updateModelColor`, applied to the
        model. */
    method Click(option: ColorOption)
      requires option in options
      modifies this, (set o | o in options), storage
      ensures OnlyActive(option)
      ensures storage.items == old(storage.items)[ModelColorKey := option.color][SelectedKey := option.color]
      ensures colorUpdates == old(colorUpdates) + (if hasUpdater then [option.color] else [])
    {
      SetActiveColor(option);
      var color := option.color;
      storage.SetItem(ModelColorKey, color);
      storage.SetItem(SelectedKey, color);
      if hasUpdater {
        colorUpdates := colorUpdates + [color];
      }
    }
  }

  /** After a click on an option with a colour, the next page load restores that colour,
      and the viewer (which reads `morfis_model_color`) draws with it. */
  lemma ClickedColorIsRestored(items: map<string, string>, color: string)
    requires color != ""
    ensures var after := items[ModelColorKey := color][SelectedKey := color];
      SavedColor(Some(after[SelectedKey]), Some(after[ModelColorKey])) == Some(color) &&
      after[ModelColorKey] == color
  {
  }

  /** The older key is only consulted when the newer one is missing or empty. */
  lemma NewerKeyWins(selected: string, modelColor: Option<string>)
    requires selected != ""
    ensures SavedColor(Some(selected), modelColor) == Some(selected)
    ensures SavedColor(Some(""), modelColor) == modelColor && SavedColor(None, modelColor) == modelColor
  {
  }
}
