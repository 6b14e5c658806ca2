/** Display text the server derives from design-type ids such as `coffee_table`: the
    entries of the configuration answer, the command recorded when a design is started
    and the fallback welcome text. Case mapping covers ASCII letters. */
module AppDesignTypes {
  import opened Wrappers
  import opened Text

  /** Python's `str.title()`: a letter that follows a letter is lower-cased, any other
      letter is upper-cased. */
  function Title(s: string): (r: string)
    ensures |r| == |s|
    ensures forall i :: 0 <= i < |s| ==> IsAsciiLetter(r[i]) == IsAsciiLetter(s[i])
    ensures forall i :: 0 <= i < |s| ==> LowerChar(r[i]) == LowerChar(s[i])
  {
    seq(|s|, i requires 0 <= i < |s| =>
      if i > 0 && IsAsciiLetter(s[i - 1]) then LowerChar(s[i]) else UpperChar(s[i]))
  }

  /** Python's `str.capitalize()`: the first character upper-cased, the rest lower-cased. */
  function Capitalize(s: string): (r: string)
    ensures |r| == |s|
    ensures s != [] ==> r[0] == UpperChar(s[0]) && r[1..] == Lower(s[1..])
  {
    if s == [] then [] else [UpperChar(s[0])] + Lower(s[1..])
  }

  /** `design_type.replace("_", " ")`. */
  function Spaced(designType: string): (r: string)
    ensures |r| == |designType| && '_' !in r
  {
    ReplaceAll(designType, '_', ' ')
  }

  /** One entry of the `design_types` list of `/api/config`. */
  datatype DesignType = DesignType(id: string, name: string, description: string)

  const DescriptionPrefix := "Start with a "
  const DesignSuffix := " design"

  /** The entry for one id: the id itself, its spaced and title-cased name, and the
      description `Start with a <spaced id> design`. */
  function DesignTypeEntry(id: string): (d: DesignType)
    ensures d.id == id
    ensures Lower(d.name) == Lower(Spaced(id)) && '_' !in d.name
    ensures StartsWith(d.description, "Start with a ") && EndsWith(d.description, " design")
    ensures d.name == Title(Spaced(id)) && d.description == DescriptionPrefix + Spaced(id) + DesignSuffix
  {
    var spaced := Spaced(id);
    var name := Title(spaced);
    assert '_' !in name by {
      forall i | 0 <= i < |name| ensures name[i] != '_' {
        assert LowerChar(name[i]) == LowerChar(spaced[i]);
      }
    }
    assert Lower(name) == Lower(spaced);
    var description := DescriptionPrefix + spaced + DesignSuffix;
    assert description[..13] == "Start with a ";
    assert description[|description| - 7..] == " design";
    DesignType(id, name, description)
  }

  const DefaultWelcome := "Welcome to Morfis - AI CAD Agent"

  /** The loop of `get_app_config` over the backend's design-type ids. */
  method FormatDesignTypes(ids: seq<string>) returns (types: seq<DesignType>)
    ensures |types| == |ids|
    ensures forall i :: 0 <= i < |ids| ==> types[i] == DesignTypeEntry(ids[i])
  {
    types := [];
    for k := 0 to |ids|
      invariant |types| == k
      invariant forall i :: 0 <= i < k ==> types[i] == DesignTypeEntry(ids[i])
    {
      types := types + [DesignTypeEntry(ids[k])];
    }
  }

  /** The user command recorded in the trajectory when a design is started. */
  function NewDesignCommand(designType: string): (c: string)
    ensures StartsWith(c, "Create new ") && EndsWith(c, " design")
    ensures |c| == |designType| + 18 && c[11..|c| - 7] == Spaced(designType)
  {
    var c := "Create new " + Spaced(designType) + " design";
    assert c[..11] == "Create new ";
    assert c[|c| - 7..] == " design";
    c
  }

  const WelcomePrefix := "Starting with a "
  const WelcomeSuffix := " design. You can modify it or add features."
  const BlankCanvasAnswer := "Starting with a blank canvas. What would you like to create?"

  /** The answer `new_design` records and returns: the backend's text, unless it is
      missing, empty or the bare `Completed`, in which case a welcome for the design. */
  function NewDesignAnswer(designType: string, backendAnswer: Option<string>): (a: string)
    ensures a != [] && a != "Completed"
    ensures backendAnswer.Some? && backendAnswer.value != [] && backendAnswer.value != "Completed" ==>
      a == backendAnswer.value
    ensures (backendAnswer.None? || backendAnswer.value == [] || backendAnswer.value == "Completed") ==>
      (designType == "empty" <==> a == BlankCanvasAnswer)
    ensures (backendAnswer.None? || backendAnswer.value == [] || backendAnswer.value == "Completed") ==>
      designType != "empty" ==> a == WelcomePrefix + Spaced(designType) + WelcomeSuffix
  {
    if backendAnswer.None? || backendAnswer.value == [] || backendAnswer.value == "Completed" then
      if designType == "empty" then BlankCanvasAnswer
      else
        var a := WelcomePrefix + Spaced(designType) + WelcomeSuffix;
        assert a[|a| - 1] == '.' && BlankCanvasAnswer[|BlankCanvasAnswer| - 1] == '?';
        a
    else backendAnswer.value
  }

  // ---------------------------------------------------------------- lemmas

  /** `title()` changes letter case and nothing else, and applying it again changes nothing. */
  lemma TitleIdempotent(s: string)
    ensures Title(Title(s)) == Title(s)
  {
    var t := Title(s);
    forall i | 0 <= i < |s| ensures Title(t)[i] == t[i] {
      if i > 0 && IsAsciiLetter(s[i - 1]) {
        assert IsAsciiLetter(t[i - 1]);
      } else {
        assert !(i > 0 && IsAsciiLetter(t[i - 1]));
      }
    }
  }

  /** In a display name, every word made of letters starts with a capital and goes on in
      small letters. */
  lemma TitleWordShape(s: string, i: nat)
    requires i < |s| && IsAsciiLetter(s[i])
    ensures (i == 0 || !IsAsciiLetter(s[i - 1])) ==> 'A' <= Title(s)[i] <= 'Z'
    ensures (i > 0 && IsAsciiLetter(s[i - 1])) ==> 'a' <= Title(s)[i] <= 'z'
  {
  }
}
