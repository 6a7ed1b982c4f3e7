/** The cookie-preferences page: four switches, of which "essential" can
    never be turned off. */
module Cookies {
  import opened Text
  import opened Flags

  const InitialPreferences: map<string, bool> :=
    map["essential" := true, "analytics" := true, "marketing" := false, "personalization" := true]

  /** `handlePreferenceChange(key)`: "essential" is refused; any other key
      is flipped and nothing else changes. */
  function HandlePreferenceChange(prefs: map<string, bool>, key: string): (r: map<string, bool>)
    ensures key == "essential" ==> r == prefs
    ensures key != "essential" ==> r.Keys == prefs.Keys + {key} && r[key] == !Get(prefs, key)
    ensures forall j :: j in prefs && j != key ==> r[j] == prefs[j]
  {
    if key == "essential" then prefs else Negate(prefs, key)
  }

  /** Changing the same present key twice restores the preferences. */
  lemma ChangeTwiceRestores(prefs: map<string, bool>, key: string)
    requires key in prefs
    ensures HandlePreferenceChange(HandlePreferenceChange(prefs, key), key) == prefs
  {
    if key != "essential" {
      NegateTwice(prefs, key);
    }
  }

  /** Two switches flipped in either order give the same preferences. */
  lemma ChangesCommute(prefs: map<string, bool>, a: string, b: string)
    ensures HandlePreferenceChange(HandlePreferenceChange(prefs, a), b)
         == HandlePreferenceChange(HandlePreferenceChange(prefs, b), a)
  {
    if a != "essential" && b != "essential" {
      NegateCommutes(prefs, a, b);
    }
  }

  function Run(prefs: map<string, bool>, keys: seq<string>): map<string, bool>
    decreases |keys|
  {
    if |keys| == 0 then prefs else Run(HandlePreferenceChange(prefs, keys[0]), keys[1..])
  }

  /** Essential cookies stay on whatever is changed, in whatever order. */
  lemma {:induction false} EssentialStaysOn(prefs: map<string, bool>, keys: seq<string>)
    requires Get(prefs, "essential")
    ensures Get(Run(prefs, keys), "essential")
    decreases |keys|
  {
    if |keys| > 0 {
      EssentialStaysOn(HandlePreferenceChange(prefs, keys[0]), keys[1..]);
    }
  }

  lemma InitialEssentialOn()
    ensures Get(InitialPreferences, "essential")
  {
  }

  /** A row of the page; rows marked required show no switch. */
  datatype CookieType = CookieType(title: string, required: bool)

  const CookieTypes: seq<CookieType> := [
    CookieType("Essential Cookies", true),
    CookieType("Analytics Cookies", false),
    CookieType("Marketing Cookies", false),
    CookieType("Personalization Cookies", false)
  ]

  /** The preference key a row's switch toggles: the title's first word, lower-cased. */
  function KeyOf(t: CookieType): string {
    FirstWord(Lower(t.title))
  }

  /** The four rows name exactly the preference record's four keys. */
  lemma KeysMatchRows()
    ensures KeyOf(CookieTypes[0]) == "essential"
    ensures KeyOf(CookieTypes[1]) == "analytics"
    ensures KeyOf(CookieTypes[2]) == "marketing"
    ensures KeyOf(CookieTypes[3]) == "personalization"
  {
    EssentialKey();
    AnalyticsKey();
    MarketingKey();
    PersonalizationKey();
  }

  lemma EssentialKey()
    ensures KeyOf(CookieTypes[0]) == "essential"
  {
    FirstWordOfTitle("Essential Cookies", "essential");
  }

  lemma AnalyticsKey()
    ensures KeyOf(CookieTypes[1]) == "analytics"
  {
    FirstWordOfTitle("Analytics Cookies", "analytics");
  }

  lemma MarketingKey()
    ensures KeyOf(CookieTypes[2]) == "marketing"
  {
    FirstWordOfTitle("Marketing Cookies", "marketing");
  }

  lemma PersonalizationKey()
    ensures KeyOf(CookieTypes[3]) == "personalization"
  {
    FirstWordOfTitle("Personalization Cookies", "personalization");
  }

  /** Lower-casing a title that starts with `word` (any case) then a space yields `word`. */
  lemma FirstWordOfTitle(title: string, word: string)
    requires |word| < |title| && title[|word|] == ' ' && ' ' !in word
    requires forall i :: 0 <= i < |word| ==> LowerChar(title[i]) == word[i]
    ensures FirstWord(Lower(title)) == word
  {
    var l := Lower(title);
    var f := FirstWord(l);
    assert l[|word|] == ' ';
    assert l[..|word|] == word;
    assert f == l[..|f|];
  }

  /** Clicking the switch of row `i`; required rows have none. */
  function ClickRow(prefs: map<string, bool>, i: nat): (r: map<string, bool>)
    ensures i >= |CookieTypes| || CookieTypes[i].required ==> r == prefs
  {
    if i < |CookieTypes| && !CookieTypes[i].required then HandlePreferenceChange(prefs, KeyOf(CookieTypes[i]))
    else prefs
  }

  /** The rows with a switch toggle a non-essential key of the record. */
  lemma SwitchRowKey(i: nat)
    requires i < |CookieTypes| && !CookieTypes[i].required
    ensures KeyOf(CookieTypes[i]) in InitialPreferences.Keys - {"essential"}
  {
    if i == 1 {
      AnalyticsKey();
    } else if i == 2 {
      MarketingKey();
    } else {
      PersonalizationKey();
    }
  }

  /** Changing a key the record already has keeps its keys and essential on. */
  lemma ChangeKeepsRecord(prefs: map<string, bool>, key: string)
    requires prefs.Keys == InitialPreferences.Keys && Get(prefs, "essential")
    requires key in InitialPreferences.Keys
    ensures HandlePreferenceChange(prefs, key).Keys == InitialPreferences.Keys
    ensures Get(HandlePreferenceChange(prefs, key), "essential")
  {
  }

  /** Clicking any row keeps the record's four keys, and essential stays on. */
  lemma ClickRowKeepsRecord(prefs: map<string, bool>, i: nat)
    requires prefs.Keys == InitialPreferences.Keys && Get(prefs, "essential")
    ensures ClickRow(prefs, i).Keys == InitialPreferences.Keys
    ensures Get(ClickRow(prefs, i), "essential")
  {
    if i < |CookieTypes| && !CookieTypes[i].required {
      SwitchRowKey(i);
      ChangeKeepsRecord(prefs, KeyOf(CookieTypes[i]));
    }
  }
}
