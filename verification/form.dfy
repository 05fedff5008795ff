/** The questionnaire form: the closed option list of every trait, the form's trait
    state and its edits, the all-fields-selected check on submit, and the label shown
    above each trait. */
module PrakritiForm {
  import opened Records
  import opened Prakriti

  // ---------------------------------------------------------------------------
  // The option catalog
  // ---------------------------------------------------------------------------

  /** One trait of the questionnaire with the options its select offers. */
  datatype Question = Question(key: string, options: seq<string>)

  const OptionsMap: seq<Question> := [
    Question("skin", ["Dry", "Oily", "Balanced"]),
    Question("bodyBuild", ["Thin", "Muscular", "Heavier"]),
    Question("hair", ["Dry, thin", "Oily, thinning", "Thick, oily"]),
    Question("mindset", ["Restless", "Intense", "Calm"]),
    Question("memory", ["Forgetful", "Sharp", "Slow but long-term"]),
    Question("emotions", ["Anxious", "Angry", "Content"]),
    Question("diet", ["Warm, dry food", "Cold, spicy", "Light, sweet"]),
    Question("sleep", ["Light", "Moderate", "Deep"]),
    Question("energy", ["Variable", "High, bursts", "Steady"]),
    Question("weatherPreference", ["Warm", "Cool", "Warm and dry"]),
    Question("stressResponse", ["Anxious", "Irritable", "Calm"])
  ]

  /** The form asks for exactly the classifier's eleven keys, in the same order, each
      with three options; option 0, 1 and 2 are the Vata, Pitta and Kapha template
      values of that key. */
  lemma CatalogMatchesTemplates()
    ensures |OptionsMap| == |TraitKeys| == 11
    ensures forall i :: 0 <= i < 11 ==> OptionsMap[i].key == TraitKeys[i] && |OptionsMap[i].options| == 3
    ensures forall i, j :: 0 <= i < 11 && 0 <= j < 3 ==>
      Matches(Field(OptionsMap[i].key, OptionsMap[i].options[j]), DoshaAt(j))
  {
    forall i | 0 <= i < 11
      ensures Matches(Field(OptionsMap[i].key, OptionsMap[i].options[0]), Vata)
      ensures Matches(Field(OptionsMap[i].key, OptionsMap[i].options[1]), Pitta)
      ensures Matches(Field(OptionsMap[i].key, OptionsMap[i].options[2]), Kapha)
    {
    }
    assert forall j :: 0 <= j < 3 ==> DoshaAt(j) == [Vata, Pitta, Kapha][j];
  }

  lemma OptionKeysDistinct()
    ensures forall i, j :: 0 <= i < j < |OptionsMap| ==> OptionsMap[i].key != OptionsMap[j].key
  {
  }

  // ---------------------------------------------------------------------------
  // The trait state
  // ---------------------------------------------------------------------------

  /** Every trait of the catalog, in catalog order, with nothing selected yet. */
  function EmptySelection(): (t: Object)
    ensures |t| == |OptionsMap|
  {
    seq(|OptionsMap|, i requires 0 <= i < |OptionsMap| => Field(OptionsMap[i].key, ""))
  }

  /** The initial state: a reduce over the catalog keys that writes acc[key] = ''. */
  method InitialTraits() returns (acc: Object)
    ensures acc == EmptySelection()
    ensures DistinctKeys(acc)
    ensures forall i :: 0 <= i < |acc| ==> acc[i].key == OptionsMap[i].key && acc[i].value == ""
  {
    OptionKeysDistinct();
    acc := [];
    for i := 0 to |OptionsMap|
      invariant acc == EmptySelection()[..i]
    {
      var key := OptionsMap[i].key;
      NotFound(acc, key);
      acc := Assign(acc, key, "");
    }
  }

  /** Object.values(traits).every(value => value !== ''). */
  predicate AllSelected(t: Object)
  {
    forall i :: 0 <= i < |t| ==> t[i].value != ""
  }

  /** A state the form can reach: the catalog's keys in catalog order, each either
      unselected or holding one of its options. */
  predicate OnForm(t: Object)
  {
    && |t| == |OptionsMap|
    && forall i :: 0 <= i < |t| ==>
         t[i].key == OptionsMap[i].key && (t[i].value == "" || t[i].value in OptionsMap[i].options)
  }

  /** The initial state is on the form and is not yet submittable. */
  lemma InitialStateOnForm()
    ensures OnForm(EmptySelection())
    ensures DistinctKeys(EmptySelection())
    ensures !AllSelected(EmptySelection())
  {
    OptionKeysDistinct();
    assert EmptySelection()[0].value == "";
  }

  /** Choosing option j of trait i changes that trait only and stays on the form. */
  lemma {:induction false} ChangeStaysOnForm(t: Object, i: nat, j: nat)
    requires OnForm(t)
    requires i < |OptionsMap| && j < |OptionsMap[i].options|
    ensures var r := Assign(t, OptionsMap[i].key, OptionsMap[i].options[j]);
      && OnForm(r)
      && r[i].value == OptionsMap[i].options[j]
      && forall m :: 0 <= m < |t| && m != i ==> r[m] == t[m]
  {
    OptionKeysDistinct();
    IndexOfUnique(t, OptionsMap[i].key, i);
  }

  /** Every submitted selection scores exactly eleven in total, so its primary dosha
      scores at least four. */
  lemma {:induction false} SubmittedSelectionScores(t: Object)
    requires OnForm(t) && AllSelected(t)
    ensures Score(t, Vata) + Score(t, Pitta) + Score(t, Kapha) == 11
    ensures Score(t, DoshaNamed(Classify(t).primary).value) >= 4
  {
    CatalogMatchesTemplates();
    forall i | 0 <= i < |t| ensures Recognized(t[i]) {
      var j :| 0 <= j < 3 && t[i].value == OptionsMap[i].options[j];
      assert t[i] == Field(OptionsMap[i].key, OptionsMap[i].options[j]);
      assert Matches(t[i], DoshaAt(j));
    }
    ScoreSumExact(t);
    PrimaryIsFirstTopScorer(t, Vata);
    PrimaryIsFirstTopScorer(t, Pitta);
    PrimaryIsFirstTopScorer(t, Kapha);
  }

  const SelectEveryTrait := "Please select an option for every trait."

  /** The form component's state. */
  class Form {
    var traits: Object
    var errorMessage: string

    constructor ()
      ensures traits == EmptySelection() && errorMessage == ""
    {
      var initial := InitialTraits();
      traits := initial;
      errorMessage := "";
    }

    /** handleChange: setTraits({ ...traits, [name]: value }). */
    method HandleChange(name: string, value: string)
      modifies this
      ensures traits == Assign(old(traits), name, value)
      ensures errorMessage == old(errorMessage)
    {
      traits := Assign(traits, name, value);
    }

    /** The validation step of handleSubmit: clear the message, then refuse unless every
        trait has a value. Sending the selection is not part of this model. */
    method HandleSubmit() returns (proceeds: bool)
      modifies this
      ensures traits == old(traits)
      ensures proceeds <==> AllSelected(traits)
      ensures errorMessage == if proceeds then "" else SelectEveryTrait
    {
      errorMessage := "";
      proceeds := AllSelected(traits);
      if !proceeds {
        errorMessage := SelectEveryTrait;
      }
    }
  }

  // ---------------------------------------------------------------------------
  // Labels
  // ---------------------------------------------------------------------------

  predicate IsUpper(c: char) { 'A' <= c <= 'Z' }

  predicate IsLower(c: char) { 'a' <= c <= 'z' }

  function ToUpper(c: char): char
  {
    if IsLower(c) then (c as int - 32) as char else c
  }

  function ToLower(c: char): char
  {
    if IsUpper(c) then (c as int + 32) as char else c
  }

  /** The characters that '.' in a regular expression does not match. */
  predicate IsLineTerminator(c: char)
  {
    c == '\n' || c == '\r' || c == '\U{2028}' || c == '\U{2029}'
  }

  function CountUpper(s: string): nat
  {
    if s == [] then 0 else (if IsUpper(s[0]) then 1 else 0) + CountUpper(s[1..])
  }

  /** key.replace(/([A-Z])/g, ' $1'). */
  function SpaceBeforeCapitals(s: string): string
  {
    if s == [] then []
    else (if IsUpper(s[0]) then [' ', s[0]] else [s[0]]) + SpaceBeforeCapitals(s[1..])
  }

  /** .replace(/^./, str => str.toUpperCase()). */
  function CapitalizeFirst(s: string): string
  {
    if s == [] || IsLineTerminator(s[0]) then s else [ToUpper(s[0])] + s[1..]
  }

  /** The label shown above a trait's select. */
  function FormatLabel(key: string): string
  {
    CapitalizeFirst(SpaceBeforeCapitals(key))
  }

  /** The spacing step adds one character per capital letter, and every capital letter
      it leaves has a space right before it. */
  lemma {:induction false} SpacingShape(s: string)
    ensures |SpaceBeforeCapitals(s)| == |s| + CountUpper(s)
    ensures forall i :: 0 <= i < |SpaceBeforeCapitals(s)| && IsUpper(SpaceBeforeCapitals(s)[i]) ==>
      0 < i && SpaceBeforeCapitals(s)[i - 1] == ' '
  {
    if s != [] {
      SpacingShape(s[1..]);
      var head := if IsUpper(s[0]) then [' ', s[0]] else [s[0]];
      var r := SpaceBeforeCapitals(s);
      assert r == head + SpaceBeforeCapitals(s[1..]);
      forall i | 0 <= i < |r| && IsUpper(r[i]) ensures 0 < i && r[i - 1] == ' ' {
        if i >= |head| {
          assert r[i] == SpaceBeforeCapitals(s[1..])[i - |head|];
          if i - |head| > 0 {
            assert r[i - 1] == SpaceBeforeCapitals(s[1..])[i - 1 - |head|];
          }
        }
      }
    }
  }

  /** A label is one character longer than its key for every capital in the key. */
  lemma LabelLength(key: string)
    ensures |FormatLabel(key)| == |key| + CountUpper(key)
  {
    SpacingShape(key);
  }

  function RemoveSpaces(s: string): string
  {
    if s == [] then [] else (if s[0] == ' ' then [] else [s[0]]) + RemoveSpaces(s[1..])
  }

  function DecapitalizeFirst(s: string): string
  {
    if s == [] then s else [ToLower(s[0])] + s[1..]
  }

  /** The key a label came from: drop the spaces, lower the first letter. */
  function KeyOfLabel(text: string): string
  {
    DecapitalizeFirst(RemoveSpaces(text))
  }

  lemma {:induction false} RemoveInsertedSpaces(s: string)
    requires forall i :: 0 <= i < |s| ==> s[i] != ' '
    ensures RemoveSpaces(SpaceBeforeCapitals(s)) == s
  {
    if s != [] {
      RemoveInsertedSpaces(s[1..]);
      var head := if IsUpper(s[0]) then [' ', s[0]] else [s[0]];
      RemoveSpacesAppend(head, SpaceBeforeCapitals(s[1..]));
    }
  }

  lemma {:induction false} RemoveSpacesAppend(a: string, b: string)
    ensures RemoveSpaces(a + b) == RemoveSpaces(a) + RemoveSpaces(b)
  {
    if a == [] {
      assert a + b == b;
    } else {
      var head := if a[0] == ' ' then [] else [a[0]];
      assert (a + b)[0] == a[0];
      assert (a + b)[1..] == a[1..] + b;
      RemoveSpacesAppend(a[1..], b);
      calc {
        RemoveSpaces(a + b);
        head + RemoveSpaces(a[1..] + b);
        head + (RemoveSpaces(a[1..]) + RemoveSpaces(b));
        (head + RemoveSpaces(a[1..])) + RemoveSpaces(b);
      }
    }
  }

  /** For a camelCase key (lower-case first letter, no spaces) the label determines the
      key: KeyOfLabel undoes FormatLabel. */
  lemma LabelRoundTrip(key: string)
    requires key != [] && IsLower(key[0])
    requires forall i :: 0 <= i < |key| ==> key[i] != ' '
    ensures KeyOfLabel(FormatLabel(key)) == key
  {
    var spaced := SpaceBeforeCapitals(key);
    assert spaced == [key[0]] + SpaceBeforeCapitals(key[1..]);
    RemoveInsertedSpaces(key[1..]);
    assert FormatLabel(key) == [ToUpper(key[0])] + SpaceBeforeCapitals(key[1..]);
    RemoveSpacesAppend([ToUpper(key[0])], SpaceBeforeCapitals(key[1..]));
  }

  lemma {:induction false} SpacingAppend(a: string, b: string)
    ensures SpaceBeforeCapitals(a + b) == SpaceBeforeCapitals(a) + SpaceBeforeCapitals(b)
  {
    if a == [] {
      assert a + b == b;
    } else {
      var head := if IsUpper(a[0]) then [' ', a[0]] else [a[0]];
      assert (a + b)[0] == a[0];
      assert (a + b)[1..] == a[1..] + b;
      SpacingAppend(a[1..], b);
      calc {
        SpaceBeforeCapitals(a + b);
        head + SpaceBeforeCapitals(a[1..] + b);
        head + (SpaceBeforeCapitals(a[1..]) + SpaceBeforeCapitals(b));
        (head + SpaceBeforeCapitals(a[1..])) + SpaceBeforeCapitals(b);
      }
    }
  }

  lemma {:induction false} SpacingWithoutCapitals(s: string)
    requires NoCapitals(s)
    ensures SpaceBeforeCapitals(s) == s
  {
    if s != [] {
      SpacingWithoutCapitals(s[1..]);
    }
  }

  predicate NoCapitals(s: string)
  {
    forall i :: 0 <= i < |s| ==> !IsUpper(s[i])
  }

  lemma {:induction false} SpacingOneCapital(a: string, c: char, b: string)
    requires NoCapitals(a) && NoCapitals(b) && IsUpper(c)
    ensures SpaceBeforeCapitals(a + [c] + b) == a + [' ', c] + b
  {
    SpacingAppend(a + [c], b);
    SpacingAppend(a, [c]);
    SpacingWithoutCapitals(a);
    SpacingWithoutCapitals(b);
    assert [c][1..] == [];
    assert SpaceBeforeCapitals([c]) == [' ', c];
  }

  /** The label of a key with one capital in the middle, such as "bodyBuild". */
  lemma {:induction false} OneCapitalLabel(a: string, c: char, b: string)
    requires a != [] && IsLower(a[0]) && NoCapitals(a) && NoCapitals(b) && IsUpper(c)
    ensures FormatLabel(a + [c] + b) == [ToUpper(a[0])] + a[1..] + [' ', c] + b
  {
    SpacingOneCapital(a, c, b);
    var spaced := a + [' ', c] + b;
    assert spaced[0] == a[0] && spaced[1..] == a[1..] + [' ', c] + b;
    assert CapitalizeFirst(spaced) == [ToUpper(a[0])] + spaced[1..];
  }

  /** The label of the weather-preference trait. */
  lemma LabelExample(key: string)
    requires key == "weatherPreference"
    ensures FormatLabel(key) == "Weather Preference"
  {
    var head, tail := "weather", "reference";
    assert key == head + ['P'] + tail;
    OneCapitalLabel(head, 'P', tail);
  }
}
