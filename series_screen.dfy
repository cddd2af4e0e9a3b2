/** The series browser: the category chips with their keyword icons, the first
    category selected automatically, and one series list per category. */
module SeriesScreen {
  import opened Common
  import opened Types
  import opened IconRules

  /** The tests of `getCategoryIcon`, in order. */
  const SeriesRules: seq<Rule> := [
    Rule(["ação", "action"], "bolt"),
    Rule(["comédia", "comedy"], "sentiment_very_satisfied"),
    Rule(["terror", "horror"], "skull"),
    Rule(["drama"], "mask"),
    Rule(["ficção", "sci-fi"], "rocket_launch"),
    Rule(["romance"], "favorite"),
    Rule(["documentário"], "history_edu"),
    Rule(["kids", "infantil"], "child_care"),
    Rule(["anime"], "animation")
  ]

  /** `getCategoryIcon(name)`. */
  function CategoryIcon(name: string): (icon: string)
    ensures icon == DefaultIcon <==> forall j :: 0 <= j < |SeriesRules| ==> !RuleMatches(SeriesRules[j], Lower(name))
  {
    IconOf(SeriesRules, name)
  }

  /** The first test wins: a name holding both `ação` and `drama` gets the
      action icon, whatever else surrounds them. */
  lemma ActionBeatsDrama(before: string, middle: string, after: string)
    ensures CategoryIcon(before + "ação" + middle + "drama" + after) == "bolt"
  {
    var k := "ação";
    assert forall c :: 0 <= c < |k| ==> !IsUpper(k[c]);
    KeywordDecides(SeriesRules, 0, before, k, middle + "drama" + after);
    assert before + k + (middle + "drama" + after) == before + k + middle + "drama" + after;
  }

  /** The English keyword counts here as well. */
  lemma EnglishActionIsBolt(before: string, after: string)
    ensures CategoryIcon(before + "action" + after) == "bolt"
  {
    var k := "action";
    assert forall c :: 0 <= c < |k| ==> !IsUpper(k[c]);
    KeywordDecides(SeriesRules, 0, before, k, after);
  }

  /** The screen's state. */
  class SeriesBrowser {
    var activeCat: string
    var seriesList: seq<Title>
    var loading: bool

    constructor ()
      ensures activeCat == "" && seriesList == [] && !loading
    {
      activeCat := "";
      seriesList := [];
      loading := false;
    }

    /** The effect on `seriesCategories`: with categories and no active one,
        the first becomes active and its series are requested (the result is
        the category loaded). */
    method CategoriesArrived(cats: seq<Category>) returns (request: Option<string>)
      modifies this`activeCat, this`loading
      ensures |cats| > 0 && old(activeCat) == "" ==>
                request == Some(cats[0].categoryId) && activeCat == cats[0].categoryId && loading
      ensures !(|cats| > 0 && old(activeCat) == "") ==> request == None && unchanged(this)
    {
      if |cats| > 0 && activeCat == "" {
        activeCat := cats[0].categoryId;
        loading := true;
        request := Some(activeCat);
      } else {
        request := None;
      }
    }

    /** `handleCatChange(id)`: the active id is a no-op; another id becomes
        active and is loaded. */
    method HandleCatChange(id: string) returns (request: Option<string>)
      modifies this`activeCat, this`loading
      ensures id == old(activeCat) ==> request == None && unchanged(this)
      ensures id != old(activeCat) ==> request == Some(id) && activeCat == id && loading
    {
      if id == activeCat {
        return None;
      }
      activeCat := id;
      loading := true;
      request := Some(id);
    }

    /** The series request settles; loading ends either way. */
    method LoadSettled(result: Fetch<seq<Title>>)
      modifies this`seriesList, this`loading
      ensures !loading
      ensures result.Ok? ==> seriesList == result.data
      ensures result.Fail? ==> seriesList == old(seriesList)
    {
      if result.Ok? {
        seriesList := result.data;
      }
      loading := false;
    }
  }

  /** After the first category is selected automatically, clicking its chip
      again requests nothing. */
  method ReclickFirstCategory(cats: seq<Category>) returns (first: Option<string>, again: Option<string>)
    requires |cats| > 0
    ensures first == Some(cats[0].categoryId) && again == None
  {
    var b := new SeriesBrowser();
    first := b.CategoriesArrived(cats);
    again := b.HandleCatChange(cats[0].categoryId);
  }
}
