/** `lib/localImages.ts`: the bundled illustration of a sport, found by
    normalising the sport's name into a key of a fixed table. */
module LocalImages {
  import opened Text
  import opened JsArray

  /** The characters `[a-z0-9]` that survive normalisation. */
  predicate IsKeyChar(c: char) { 'a' <= c <= 'z' || '0' <= c <= '9' }

  /** Only key characters and single dashes. */
  predicate Clean(s: string) {
    && (forall i :: 0 <= i < |s| ==> IsKeyChar(s[i]) || s[i] == '-')
    && (forall i :: 0 <= i < |s| - 1 ==> s[i] != '-' || s[i + 1] != '-')
  }

  /** Drops the rest of a run of non-key characters. */
  function SkipRun(s: string): (r: string)
    ensures |r| <= |s|
    ensures r == [] || IsKeyChar(r[0])
  {
    if s != [] && !IsKeyChar(s[0]) then SkipRun(s[1..]) else s
  }

  /** `s.replace(/[^a-z0-9]+/g, "-")`: every maximal run of characters outside
      `[a-z0-9]` becomes one `-`. */
  function Collapse(s: string): (r: string)
    ensures s != [] ==> r != [] && (r[0] == '-' <==> !IsKeyChar(s[0]))
    decreases |s|
  {
    if s == [] then []
    else if IsKeyChar(s[0]) then [s[0]] + Collapse(s[1..])
    else "-" + Collapse(SkipRun(s[1..]))
  }

  /** `normalize(sport)`: lowercase, then collapse the runs. */
  function Normalize(sport: string): string {
    Collapse(Lower(sport))
  }

  /** The output holds only `[a-z0-9]` and `-`, and never two dashes in a row. */
  lemma {:induction false} CollapseIsClean(s: string)
    ensures Clean(Collapse(s))
    decreases |s|
  {
    if s != [] {
      var r := Collapse(s);
      if IsKeyChar(s[0]) {
        CollapseIsClean(s[1..]);
        assert r == [s[0]] + Collapse(s[1..]);
      } else {
        var rest := SkipRun(s[1..]);
        CollapseIsClean(rest);
        assert r == "-" + Collapse(rest);
        assert |r| > 1 ==> r[1] != '-';
      }
    }
  }

  lemma NormalizeIsClean(sport: string)
    ensures Clean(Normalize(sport))
  {
    CollapseIsClean(Lower(sport));
  }

  lemma {:induction false} SkipRunKeepsKeyChars(s: string)
    ensures Filter(SkipRun(s), IsKeyChar) == Filter(s, IsKeyChar)
  {
    if s != [] && !IsKeyChar(s[0]) {
      SkipRunKeepsKeyChars(s[1..]);
    }
  }

  /** Collapsing keeps every letter and digit, in order: the dashes are the
      only thing it adds and the other characters the only thing it drops. */
  lemma {:induction false} CollapseKeepsKeyChars(s: string)
    ensures Filter(Collapse(s), IsKeyChar) == Filter(s, IsKeyChar)
    decreases |s|
  {
    if s != [] {
      if IsKeyChar(s[0]) {
        CollapseKeepsKeyChars(s[1..]);
        assert ([s[0]] + Collapse(s[1..]))[1..] == Collapse(s[1..]);
      } else {
        var rest := SkipRun(s[1..]);
        CollapseKeepsKeyChars(rest);
        SkipRunKeepsKeyChars(s[1..]);
        assert ("-" + Collapse(rest))[1..] == Collapse(rest);
      }
    }
  }

  /** A clean string has nothing left to collapse. */
  lemma {:induction false} CollapseClean(s: string)
    requires Clean(s)
    ensures Collapse(s) == s
    decreases |s|
  {
    if s != [] {
      assert Clean(s[1..]);
      CollapseClean(s[1..]);
      if !IsKeyChar(s[0]) {
        assert s[0] == '-';
        if |s| > 1 { assert IsKeyChar(s[1]); }
        assert SkipRun(s[1..]) == s[1..];
      }
    }
  }

  lemma LowerClean(s: string)
    requires Clean(s)
    ensures Lower(s) == s
  {
  }

  /** Normalising twice is normalising once. */
  lemma NormalizeIdempotent(sport: string)
    ensures Normalize(Normalize(sport)) == Normalize(sport)
  {
    var n := Normalize(sport);
    NormalizeIsClean(sport);
    LowerClean(n);
    CollapseClean(n);
  }

  /** The key ignores ASCII case. */
  lemma NormalizeIgnoresCase(a: string, b: string)
    requires Lower(a) == Lower(b)
    ensures Normalize(a) == Normalize(b)
  {
  }

  /** A name made of letters only normalises to its lowercase. */
  lemma NormalizeLetters(sport: string)
    requires forall i :: 0 <= i < |sport| ==> 'a' <= LowerChar(sport[i]) <= 'z'
    ensures Normalize(sport) == Lower(sport)
  {
    CollapseClean(Lower(sport));
  }

  // ---------------------------------------------------------------- lookup

  const DEFAULT_KEY: string := "default"

  const SPORT_IMAGE_MAP: map<string, string> := map[
    "athletics" := "/images/sports/athletics.svg",
    "football" := "/images/sports/football.svg",
    "aquatics" := "/images/sports/aquatics.svg",
    "judo" := "/images/sports/judo.svg",
    "table-tennis" := "/images/sports/table-tennis.svg",
    "volleyball" := "/images/sports/volleyball.svg",
    "cycling" := "/images/sports/cycling.svg",
    "gymnastics" := "/images/sports/gymnastics.svg",
    "multisport" := "/images/sports/multisport.svg",
    DEFAULT_KEY := "/images/sports/default.svg"]

  /** The sport names the application offers (`SPORT_OPTIONS` of `lib/constants.ts`). */
  const SPORT_OPTIONS: seq<string> := ["Athletics", "Football", "Aquatics", "Judo",
    "Table Tennis", "Volleyball", "Cycling", "Gymnastics", "Multisport"]

  /** `getLocalImageForSport`, reading only the table's own entries: the
      image stored under the normalised key, or the default image. */
  function GetLocalImageForSport(sport: string): (r: string)
    ensures r in SPORT_IMAGE_MAP.Values
    ensures Normalize(sport) in SPORT_IMAGE_MAP ==> r == SPORT_IMAGE_MAP[Normalize(sport)]
    ensures Normalize(sport) !in SPORT_IMAGE_MAP ==> r == SPORT_IMAGE_MAP[DEFAULT_KEY]
  {
    var key := Normalize(sport);
    if key in SPORT_IMAGE_MAP then SPORT_IMAGE_MAP[key] else SPORT_IMAGE_MAP[DEFAULT_KEY]
  }

  /** The image does not depend on ASCII case. */
  lemma ImageIgnoresCase(a: string, b: string)
    requires Lower(a) == Lower(b)
    ensures GetLocalImageForSport(a) == GetLocalImageForSport(b)
  {
    NormalizeIgnoresCase(a, b);
  }

  lemma OptionImage(option: string, key: string)
    requires forall i :: 0 <= i < |option| ==> 'a' <= LowerChar(option[i]) <= 'z'
    requires Lower(option) == key && key in SPORT_IMAGE_MAP && key != DEFAULT_KEY
    ensures GetLocalImageForSport(option) == SPORT_IMAGE_MAP[key]
    ensures GetLocalImageForSport(option) != SPORT_IMAGE_MAP[DEFAULT_KEY]
  {
    NormalizeLetters(option);
  }

  lemma ImageOf(sport: string, key: string)
    requires Normalize(sport) == key && key in SPORT_IMAGE_MAP
    ensures GetLocalImageForSport(sport) == SPORT_IMAGE_MAP[key]
  {
  }

  /** A prefix of key characters is copied through unchanged. */
  lemma {:induction false} CollapsePrefix(p: string, s: string)
    requires forall i :: 0 <= i < |p| ==> IsKeyChar(p[i])
    ensures Collapse(p + s) == p + Collapse(s)
  {
    if p != [] {
      assert (p + s)[0] == p[0] && (p + s)[1..] == p[1..] + s;
      CollapsePrefix(p[1..], s);
      assert [p[0]] + p[1..] == p;
    } else {
      assert p + s == s;
    }
  }

  predicate KeyWord(w: string) {
    w != [] && forall i :: 0 <= i < |w| ==> IsKeyChar(w[i])
  }

  /** Two words separated by a blank are joined by a dash. */
  lemma TwoWords(a: string, b: string)
    requires KeyWord(a) && KeyWord(b)
    ensures Collapse(a + " " + b) == a + "-" + b
  {
    assert a + " " + b == a + (" " + b);
    CollapsePrefix(a, " " + b);
    assert (" " + b)[1..] == b;
    assert SkipRun(b) == b;
    CollapseClean(b);
  }

  lemma TableTennisLower()
    ensures Lower("Table Tennis") == "table" + " " + "tennis"
  {
    assert "Table Tennis" == "Table" + " " + "Tennis";
    LowerConcat("Table", " ");
    LowerConcat("Table" + " ", "Tennis");
    assert Lower("Table") == "table";
    assert Lower("Tennis") == "tennis";
  }

  lemma TableTennisKey()
    ensures Normalize("Table Tennis") == "table-tennis"
  {
    TableTennisLower();
    assert KeyWord("table") && KeyWord("tennis");
    TwoWords("table", "tennis");
    assert "table" + "-" + "tennis" == "table-tennis";
  }

  /** "Table Tennis" has its own picture, under the key `table-tennis`. */
  lemma TableTennisImage()
    ensures GetLocalImageForSport("Table Tennis") == "/images/sports/table-tennis.svg"
  {
    TableTennisKey();
    ImageOf("Table Tennis", "table-tennis");
  }

  /** Every sport option the application offers has its own picture. */
  lemma SportOptionImages(option: string)
    requires option in SPORT_OPTIONS
    ensures GetLocalImageForSport(option) != SPORT_IMAGE_MAP[DEFAULT_KEY]
  {
    if option == "Table Tennis" {
      TableTennisImage();
    } else if option in ["Athletics", "Football", "Aquatics"] {
      AthleticsGroupImages(option);
    } else if option in ["Judo", "Volleyball", "Cycling"] {
      JudoGroupImages(option);
    } else {
      GymnasticsGroupImages(option);
    }
  }

  /** The options are split in three groups only to keep each proof small:
      evaluating `normalize` on a literal name is costly for the solver. */
  lemma AthleticsGroupImages(option: string)
    requires option in ["Athletics", "Football", "Aquatics"]
    ensures GetLocalImageForSport(option) != SPORT_IMAGE_MAP[DEFAULT_KEY]
  {
    if option == "Athletics" {
      OptionImage(option, "athletics");
    } else if option == "Football" {
      OptionImage(option, "football");
    } else {
      OptionImage(option, "aquatics");
    }
  }

  lemma JudoGroupImages(option: string)
    requires option in ["Judo", "Volleyball", "Cycling"]
    ensures GetLocalImageForSport(option) != SPORT_IMAGE_MAP[DEFAULT_KEY]
  {
    if option == "Judo" {
      OptionImage(option, "judo");
    } else if option == "Volleyball" {
      OptionImage(option, "volleyball");
    } else {
      OptionImage(option, "cycling");
    }
  }

  lemma GymnasticsGroupImages(option: string)
    requires option in ["Gymnastics", "Multisport"]
    ensures GetLocalImageForSport(option) != SPORT_IMAGE_MAP[DEFAULT_KEY]
  {
    if option == "Gymnastics" {
      OptionImage(option, "gymnastics");
    } else {
      OptionImage(option, "multisport");
    }
  }

  // ---------------------------------------------------------------- as written

  /** What a property read on a plain JavaScript object yields: an own entry
      of the table, the inherited `Object` constructor, or `undefined`. */
  datatype PropertyValue = Own(image: string) | InheritedConstructor | Undefined

  /** `SPORT_IMAGE_MAP[key]` as JavaScript evaluates it: keys are also looked
      up on `Object.prototype`, and the only one of its members whose name
      `normalize` can produce is `constructor`. */
  function PropertyRead(key: string): (r: PropertyValue)
    ensures r.Own? <==> key in SPORT_IMAGE_MAP
  {
    if key in SPORT_IMAGE_MAP then Own(SPORT_IMAGE_MAP[key])
    else if key == "constructor" then InheritedConstructor
    else Undefined
  }

  /** `SPORT_IMAGE_MAP[key] ?? SPORT_IMAGE_MAP.default` as written: `??` only
      replaces `undefined`, so the inherited constructor comes back as is. */
  function ImageAsWritten(sport: string): (r: PropertyValue)
    ensures r.Own? ==> r.image in SPORT_IMAGE_MAP.Values
    ensures r.Own? ==> r.image == GetLocalImageForSport(sport)
  {
    match PropertyRead(Normalize(sport))
    case Undefined => Own(SPORT_IMAGE_MAP[DEFAULT_KEY])
    case v => v
  }

  /** A sport named "Constructor" (in any ASCII case) gets a function
      instead of an image. */
  lemma ConstructorIsNoImage(sport: string)
    requires Lower(sport) == "constructor"
    ensures ImageAsWritten(sport) == InheritedConstructor
  {
    ConstructorKey(sport);
    ConstructorRead(sport);
  }

  lemma ConstructorKey(sport: string)
    requires Lower(sport) == "constructor"
    ensures Normalize(sport) == "constructor"
  {
    CollapseClean("constructor");
  }

  lemma ConstructorRead(sport: string)
    requires Normalize(sport) == "constructor"
    ensures ImageAsWritten(sport) == InheritedConstructor
  {
  }

  lemma ConstructorSpelling()
    ensures Lower("Constructor") == "constructor"
  {
  }
}
