/** The film browser: the category chips with their keyword icons (a shorter,
    Portuguese-only chain than the series screen's), the first category
    selected automatically, and a chip click that always reloads. */
module MoviesScreen {
  import opened Common
  import opened Types
  import opened IconRules

  /** The tests of `getCategoryIcon`, in order. */
  const MovieRules: seq<Rule> := [
    Rule(["ação"], "bolt"),
    Rule(["comédia"], "sentiment_very_satisfied"),
    Rule(["terror"], "skull"),
    Rule(["drama"], "mask"),
    Rule(["ficção"], "rocket_launch")
  ]

  /** `getCategoryIcon(name)`. */
  function CategoryIcon(name: string): (icon: string)
    ensures icon == DefaultIcon <==> forall j :: 0 <= j < |MovieRules| ==> !RuleMatches(MovieRules[j], Lower(name))
  {
    IconOf(MovieRules, name)
  }

  /** The first test wins: a name holding `terror` before `drama` gets the
      horror icon, as long as no earlier test (`ação`, `comédia`) passes. */
  lemma TerrorBeatsDrama(before: string, middle: string, after: string)
    requires !Contains(Lower(before + "terror" + middle + "drama" + after), "ação")
    requires !Contains(Lower(before + "terror" + middle + "drama" + after), "comédia")
    ensures CategoryIcon(before + "terror" + middle + "drama" + after) == "skull"
  {
    var k := "terror";
    var rest := middle + "drama" + after;
    assert before + k + rest == before + "terror" + middle + "drama" + after;
    assert forall c :: 0 <= c < |k| ==> !IsUpper(k[c]);
    var n := Lower(before + k + rest);
    forall j | 0 <= j < 2 ensures !RuleMatches(MovieRules[j], n) {
      assert MovieRules[j].keywords == [MovieRules[j].keywords[0]];
    }
    KeywordDecides(MovieRules, 2, before, k, rest);
  }

  /** English names get no icon here: `action` is the plain category icon. */
  lemma EnglishActionIsDefault()
    ensures CategoryIcon("action") == DefaultIcon
  {
    var n := "action";
    LowerOfLowercase(n);
    MissingCharNotContained(n, "ação", 'ç');
    MissingCharNotContained(n, "comédia", 'é');
    MissingCharNotContained(n, "terror", 'e');
    MissingCharNotContained(n, "drama", 'd');
    MissingCharNotContained(n, "ficção", 'f');
    forall j | 0 <= j < |MovieRules| ensures !RuleMatches(MovieRules[j], n) {
      assert MovieRules[j].keywords == [MovieRules[j].keywords[0]];
    }
  }

  /** The screen's state. */
  class MoviesBrowser {
    var activeCat: string
    var movies: seq<Title>
    var loading: bool

    constructor ()
      ensures activeCat == "" && movies == [] && !loading
    {
      activeCat := "";
      movies := [];
      loading := false;
    }

    /** The effect on `vodCategories`: with categories and no active one, the
        first becomes active and its films are requested. */
    method CategoriesArrived(cats: seq<Category>) returns (request: Option<string>)
      modifies this`activeCat, this`loading
      ensures |cats| > 0 && old(activeCat) == "" ==>
                request == Some(cats[0].categoryId) && activeCat == cats[0].categoryId && loading
      ensures !(|cats| > 0 && old(activeCat) == "") ==> request == None && unchanged(this)
    {
      if |cats| > 0 && activeCat == "" {
        activeCat := cats[0].categoryId;
        loading := true;
        request := Some(activeCat);
      } else {
        request := None;
      }
    }

    /** A chip click: always sets the category and reloads, even the active one. */
    method ClickCategory(id: string) returns (request: string)
      modifies this`activeCat, this`loading
      ensures request == id && activeCat == id && loading
    {
      activeCat := id;
      loading := true;
      request := id;
    }

    /** The film request settles; loading ends either way. */
    method LoadSettled(result: Fetch<seq<Title>>)
      modifies this`movies, this`loading
      ensures !loading
      ensures result.Ok? ==> movies == result.data
      ensures result.Fail? ==> movies == old(movies)
    {
      if result.Ok? {
        movies := result.data;
      }
      loading := false;
    }
  }

  /** Unlike the series screen, clicking the automatically selected first
      category again reloads it. */
  method ReclickFirstCategory(cats: seq<Category>) returns (first: Option<string>, again: string)
    requires |cats| > 0
    ensures first == Some(cats[0].categoryId) && again == cats[0].categoryId
  {
    var b := new MoviesBrowser();
    first := b.CategoriesArrived(cats);
    again := b.ClickCategory(cats[0].categoryId);
  }
}
