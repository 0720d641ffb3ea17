/**
 * The vehicle-model dictionary and its decoder (`MODEL_CODES`,
 * `decodeModel`): a short model code becomes the model's display name.
 */
module Models {
  import opened Wrappers
  import opened Text

  /** `MODEL_CODES`: lower-case keys, display names as Tesla writes them. */
  const ModelCodes: map<string, string> := map[
    "my" := "Model Y",
    "m3" := "Model 3",
    "ms" := "Model S",
    "mx" := "Model X",
    "cy" := "Cybertruck",
    "ro" := "Roadster"
  ]

  /** What an absent code decodes to. */
  const UnknownModel := "Desconocido"

  /** Every display name holds a lower-case letter, at its second position. */
  lemma NamesHoldLowerCase()
    ensures forall k | k in ModelCodes :: |ModelCodes[k]| > 1 && IsLower(ModelCodes[k][1])
  {
  }

  /**
   * `decodeModel`: the lower-cased code looked up; a code not listed is
   * shown upper-cased. Every name is a non-empty string, so the fallback is
   * taken exactly when the key is missing.
   */
  function DecodeModel(code: Option<string>): (r: string)
    ensures Absent(code) ==> r == UnknownModel
    ensures !Absent(code) && Lower(code.value) in ModelCodes ==> r == ModelCodes[Lower(code.value)]
    ensures !Absent(code) && Lower(code.value) !in ModelCodes ==> r == Upper(code.value)
  {
    if Absent(code) then UnknownModel
    else
      var key := Lower(code.value);
      if key in ModelCodes then ModelCodes[key] else Upper(code.value)
  }

  /** A present code and its lower-cased form decode alike, listed or not. */
  lemma DecodeModelIgnoresCase(c: string)
    requires c != ""
    ensures DecodeModel(Some(c)) == DecodeModel(Some(Lower(c)))
  {
    LowerIdempotent(c);
    UpperOfLower(c);
  }

  /**
   * The result is a listed model name exactly when the code is listed: the
   * upper-cased fallback has no lower-case letter, and every name has one.
   */
  lemma ListedIffModelName(code: Option<string>)
    ensures DecodeModel(code) in ModelCodes.Values
        <==> !Absent(code) && Lower(code.value) in ModelCodes
  {
    NamesHoldLowerCase();
  }

  // ------------------------------------------------------------ examples

  lemma MyIsModelY()
    ensures "my" in ModelCodes && ModelCodes["my"] == "Model Y"
  {
  }

  /** `"MY"`, `"My"` and `"my"` all give Model Y. */
  lemma ModelYAnyCase()
    ensures DecodeModel(Some("MY")) == "Model Y"
    ensures DecodeModel(Some("My")) == "Model Y"
    ensures DecodeModel(Some("my")) == "Model Y"
  {
    assert Lower("MY") == "my" by {
      assert forall i | 0 <= i < 2 :: Lower("MY")[i] == "my"[i];
    }
    assert Lower("My") == "my" by {
      assert forall i | 0 <= i < 2 :: Lower("My")[i] == "my"[i];
    }
    assert Lower("my") == "my" by {
      assert forall i | 0 <= i < 2 :: Lower("my")[i] == "my"[i];
    }
    MyIsModelY();
  }

  lemma ZzIsUnlisted()
    ensures "zz" !in ModelCodes
  {
  }

  /** An unlisted code such as `"zz"` is shown as `ZZ`. */
  lemma UnlistedExample()
    ensures DecodeModel(Some("zz")) == "ZZ"
  {
    assert Lower("zz") == "zz" by {
      assert forall i | 0 <= i < 2 :: Lower("zz")[i] == "zz"[i];
    }
    assert Upper("zz") == "ZZ" by {
      assert forall i | 0 <= i < 2 :: Upper("zz")[i] == "ZZ"[i];
    }
    ZzIsUnlisted();
  }
}
