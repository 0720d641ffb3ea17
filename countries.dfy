/**
 * The country dictionary and its decoder (`COUNTRY_CODES`,
 * `decodeCountry`): a two-letter country code becomes a Spanish name and an
 * emoji flag.
 */
module Countries {
  import opened Wrappers
  import opened Text

  datatype Country = Country(name: string, flag: string)

  /** The white flag (U+1F3F3 with variation selector 16) shown for any code not listed. */
  const WhiteFlag := "\U{1F3F3}\U{FE0F}"

  /** What an absent code decodes to. */
  const UnknownCountry := Country("Desconocido", WhiteFlag)

  /** `COUNTRY_CODES`: upper-case two-letter keys; names carry their accents. */
  const CountryCodes: map<string, Country> := map[
    "CO" := Country("Colombia", "\U{1F1E8}\U{1F1F4}"),
    "US" := Country("Estados Unidos", "\U{1F1FA}\U{1F1F8}"),
    "CA" := Country("Canad\U{E1}", "\U{1F1E8}\U{1F1E6}"),
    "MX" := Country("M\U{E9}xico", "\U{1F1F2}\U{1F1FD}"),
    "DE" := Country("Alemania", "\U{1F1E9}\U{1F1EA}"),
    "FR" := Country("Francia", "\U{1F1EB}\U{1F1F7}"),
    "ES" := Country("Espa\U{F1}a", "\U{1F1EA}\U{1F1F8}"),
    "UK" := Country("Reino Unido", "\U{1F1EC}\U{1F1E7}"),
    "AU" := Country("Australia", "\U{1F1E6}\U{1F1FA}"),
    "JP" := Country("Jap\U{F3}n", "\U{1F1EF}\U{1F1F5}"),
    "CN" := Country("China", "\U{1F1E8}\U{1F1F3}"),
    "BR" := Country("Brasil", "\U{1F1E7}\U{1F1F7}"),
    "AR" := Country("Argentina", "\U{1F1E6}\U{1F1F7}"),
    "CL" := Country("Chile", "\U{1F1E8}\U{1F1F1}"),
    "PE" := Country("Per\U{FA}", "\U{1F1F5}\U{1F1EA}"),
    "EC" := Country("Ecuador", "\U{1F1EA}\U{1F1E8}"),
    "PA" := Country("Panam\U{E1}", "\U{1F1F5}\U{1F1E6}"),
    "CR" := Country("Costa Rica", "\U{1F1E8}\U{1F1F7}"),
    "GT" := Country("Guatemala", "\U{1F1EC}\U{1F1F9}"),
    "SV" := Country("El Salvador", "\U{1F1F8}\U{1F1FB}"),
    "HN" := Country("Honduras", "\U{1F1ED}\U{1F1F3}"),
    "NI" := Country("Nicaragua", "\U{1F1F3}\U{1F1EE}"),
    "BO" := Country("Bolivia", "\U{1F1E7}\U{1F1F4}"),
    "PY" := Country("Paraguay", "\U{1F1F5}\U{1F1FE}"),
    "UY" := Country("Uruguay", "\U{1F1FA}\U{1F1FE}"),
    "VE" := Country("Venezuela", "\U{1F1FB}\U{1F1EA}")
  ]

  // ------------------------------------------------------------ flags

  /** The regional indicator symbol that stands for the letter `c`. */
  function RegionalIndicator(c: char): (r: char)
    requires 'A' <= c <= 'Z'
    ensures '\U{1F1E6}' <= r <= '\U{1F1FF}'
    ensures r as int - '\U{1F1E6}' as int == c as int - 'A' as int
  {
    (0x1F1E6 + (c as int - 'A' as int)) as char
  }

  /** The emoji flag of a two-letter region code: its two regional indicators. */
  function FlagOf(k: string): (r: string)
    requires |k| == 2 && 'A' <= k[0] <= 'Z' && 'A' <= k[1] <= 'Z'
    ensures |r| == 2
  {
    [RegionalIndicator(k[0]), RegionalIndicator(k[1])]
  }

  /**
   * Every listed flag is the region code's own pair of regional indicators,
   * save `UK`, whose flag is that of the ISO region `GB`.
   */
  lemma FlagsSpellTheirKeys()
    ensures forall k | k in CountryCodes && k != "UK" :: CountryCodes[k].flag == FlagOf(k)
  {
  }

  lemma UkFlagIsGb()
    ensures "UK" in CountryCodes && CountryCodes["UK"].flag == FlagOf("GB")
  {
  }

  /** No listed country shows the white flag. */
  lemma NoCountryHasWhiteFlag()
    ensures forall k | k in CountryCodes :: CountryCodes[k].flag != WhiteFlag
  {
  }

  // ------------------------------------------------------------ decoder

  /**
   * `decodeCountry`: the upper-cased code looked up; a code not listed is
   * shown upper-cased under the white flag. Every entry is an object, so the
   * fallback is taken exactly when the key is missing.
   */
  function DecodeCountry(code: Option<string>): (r: Country)
    ensures Absent(code) ==> r == UnknownCountry
    ensures !Absent(code) && Upper(code.value) in CountryCodes ==> r == CountryCodes[Upper(code.value)]
    ensures !Absent(code) && Upper(code.value) !in CountryCodes ==> r == Country(Upper(code.value), WhiteFlag)
  {
    if Absent(code) then UnknownCountry
    else
      var key := Upper(code.value);
      if key in CountryCodes then CountryCodes[key] else Country(key, WhiteFlag)
  }

  /** A present code and its upper-cased form decode alike, listed or not. */
  lemma DecodeCountryIgnoresCase(c: string)
    requires c != ""
    ensures DecodeCountry(Some(c)) == DecodeCountry(Some(Upper(c)))
  {
    UpperIdempotent(c);
  }

  /** The flag tells a listed country from everything else. */
  lemma ListedIffFlagged(code: Option<string>)
    ensures DecodeCountry(code).flag != WhiteFlag
        <==> !Absent(code) && Upper(code.value) in CountryCodes
  {
    NoCountryHasWhiteFlag();
  }

  /** Whatever is shown for a present code is named in upper case. */
  lemma UnlistedNameIsUpperCase(c: string)
    requires c != "" && Upper(c) !in CountryCodes
    ensures DecodeCountry(Some(c)).name == Upper(c)
    ensures forall i :: 0 <= i < |DecodeCountry(Some(c)).name| ==> !IsLower(DecodeCountry(Some(c)).name[i])
  {
  }

  // ------------------------------------------------------------ examples

  lemma CoIsColombia()
    ensures "CO" in CountryCodes && CountryCodes["CO"] == Country("Colombia", "\U{1F1E8}\U{1F1F4}")
  {
  }

  /** `"co"` and `"CO"` both give Colombia. */
  lemma ColombiaEitherCase()
    ensures DecodeCountry(Some("co")) == Country("Colombia", "\U{1F1E8}\U{1F1F4}")
    ensures DecodeCountry(Some("CO")) == Country("Colombia", "\U{1F1E8}\U{1F1F4}")
  {
    assert Upper("co") == "CO" by {
      assert forall i | 0 <= i < 2 :: Upper("co")[i] == "CO"[i];
    }
    assert Upper("CO") == "CO" by {
      assert forall i | 0 <= i < 2 :: Upper("CO")[i] == "CO"[i];
    }
    CoIsColombia();
  }

  lemma XxIsUnlisted()
    ensures "XX" !in CountryCodes
  {
  }

  /** An unlisted code such as `"xx"` is shown as `XX` under the white flag. */
  lemma UnlistedExample()
    ensures DecodeCountry(Some("xx")) == Country("XX", WhiteFlag)
  {
    assert Upper("xx") == "XX" by {
      assert forall i | 0 <= i < 2 :: Upper("xx")[i] == "XX"[i];
    }
    XxIsUnlisted();
  }
}
