/**
 * The query handling of `getAllMenuItems` in src/controllers/menu.controller.js:
 * the filter object, the `sortBy` parse, and the pagination arithmetic.
 * Every query parameter is an optional string, as Express hands it over.
 */
module MenuController {
  import opened Wrappers
  import opened Text
  import opened JsValues
  import opened MenuItems

  /** `if (req.query.x)`: present and not "". */
  predicate Given(q: Option<string>) {
    q.Some? && q.value != ""
  }

  /** The filter object: each of category, dietary tag and search text when supplied. */
  datatype MenuFilter = MenuFilter(category: Option<string>, dietary: Option<string>, search: Option<string>)

  function FilterOf(category: Option<string>, dietary: Option<string>, search: Option<string>): (f: MenuFilter)
    ensures f.category.Some? <==> Given(category)
    ensures f.dietary.Some? <==> Given(dietary)
    ensures f.search.Some? <==> Given(search)
    ensures f.category.Some? ==> f.category == category
    ensures f.dietary.Some? ==> f.dietary == dietary
    ensures f.search.Some? ==> f.search == search
  {
    MenuFilter(if Given(category) then category else None,
               if Given(dietary) then dietary else None,
               if Given(search) then search else None)
  }

  /**
   * The category and dietary parts of `MenuItem.find(filter)`: the category path lowercases the
   * query value as it does a stored value, then compares; the tag must be among the item's tags.
   */
  predicate MatchesCategoryAndTag(m: MenuItem, f: MenuFilter): (b: bool)
    // only an item whose category has no capital letter can match a category
    ensures b && f.category.Some? ==>
              |m.category| == |f.category.value| && forall i :: 0 <= i < |m.category| ==> !IsUpper(m.category[i])
    ensures b && f.dietary.Some? ==> f.dietary.value in m.dietaryTags
  {
    (f.category.None? || m.category == ToLower(f.category.value))
    && (f.dietary.None? || f.dietary.value in m.dietaryTags)
  }

  /** A category asked for in any mix of cases selects what its lower case selects. */
  lemma CategoryCaseIgnored(m: MenuItem, category: string, dietary: Option<string>, search: Option<string>)
    requires category != ""
    ensures MatchesCategoryAndTag(m, FilterOf(Some(category), dietary, search))
            <==> MatchesCategoryAndTag(m, FilterOf(Some(ToLower(category)), dietary, search))
  {
    ToLowerIdempotent(category);
  }

  /** `?category=Drink` lists the drinks, which are stored as 'drink'. */
  lemma CapitalizedCategoryMatches(m: MenuItem)
    requires m.category == "drink"
    ensures MatchesCategoryAndTag(m, FilterOf(Some("Drink"), None, None))
  {
    assert ToLower("Drink") == "drink";
  }

  /** With no category or dietary parameter every item passes those two tests. */
  lemma NoFilterSelectsAll(m: MenuItem, search: Option<string>)
    ensures MatchesCategoryAndTag(m, FilterOf(None, None, search))
  {
  }

  // ---------------------------------------------------------------- sorting

  /** `sort[parts[0]] = parts[1] === 'desc' ? -1 : 1` over `sortBy.split(':')`; no sortBy, no sort. */
  function SortOf(sortBy: Option<string>): (sort: map<string, int>)
    ensures !Given(sortBy) ==> sort == map[]
    ensures Given(sortBy) ==> |sort| == 1 && forall k :: k in sort ==> sort[k] == -1 || sort[k] == 1
  {
    if !Given(sortBy) then map[]
    else
      var parts := Split(sortBy.value, ':');
      map[parts[0] := if |parts| > 1 && parts[1] == "desc" then -1 else 1]
  }

  /** `field:dir` sorts on the field, descending exactly when dir is 'desc'. */
  lemma SortFieldDirection(field: string, dir: string)
    requires ':' !in field && ':' !in dir
    ensures SortOf(Some(field + ":" + dir)) == map[field := if dir == "desc" then -1 else 1]
  {
    SplitAfterPiece(field, ':', dir);
    SplitNoSeparator(dir, ':');
  }

  /** A sortBy without a colon sorts ascending on the whole text. */
  lemma SortWithoutDirection(field: string)
    requires field != "" && ':' !in field
    ensures SortOf(Some(field)) == map[field := 1]
  {
    SplitNoSeparator(field, ':');
  }

  // ---------------------------------------------------------------- pagination

  /** `parseInt(q) || fallback`: NaN and 0 are falsy and give the fallback. */
  function IntOr(q: Option<string>, fallback: int): (n: int)
    ensures q.None? ==> n == fallback
    ensures n != 0 || fallback == 0
  {
    if q.None? then fallback
    else match ParseInt(q.value)
         case None => fallback
         case Some(v) => if v == 0 then fallback else v
  }

  function Limit(q: Option<string>): (limit: int)
    ensures limit != 0
  {
    IntOr(q, 10)
  }

  function Page(q: Option<string>): int {
    IntOr(q, 1)
  }

  function Skip(page: int, limit: int): int {
    (page - 1) * limit
  }

  /** `Math.ceil(total / limit)`: for a positive limit, the pages hold every item and the last one is not empty. */
  function Pages(total: nat, limit: int): (pages: int)
    requires limit != 0
    ensures limit > 0 ==> pages >= 0 && (pages - 1) * limit < total <= pages * limit
  {
    var pages := JsCeil(total as real / limit as real);
    assert limit > 0 ==> (pages - 1) * limit < total <= pages * limit by {
      if limit > 0 {
        CeilBounds(total as real, limit as real, pages as real);
        assert ((pages - 1) * limit) as real == (pages as real - 1.0) * limit as real;
        assert (pages * limit) as real == pages as real * limit as real;
      }
    }
    pages
  }

  /** The limits the handler ends up with: a number given as text, 10 for "0", "abc" or nothing. */
  lemma LimitSamples()
    ensures Limit(Some("25")) == 25
    ensures Limit(Some("0")) == 10 && Limit(Some("abc")) == 10 && Limit(None) == 10
    ensures Page(None) == 1 && Skip(Page(Some("3")), Limit(None)) == 20
  {
    LimitOfDigits("25", 25) by { assert DigitsValue("2", 10) == 2 by { assert "2"[..0] == ""; } }
    LimitOfZero();
    LimitOfLetters();
    PageOfDigits("3", 3) by { assert "3"[..0] == ""; }
  }

  /** A written run of decimal digits other than 0 is taken as the limit. */
  lemma LimitOfDigits(s: string, n: nat)
    requires s != "" && AllDigits(s) && DigitsValue(s, 10) == n && n != 0
    ensures Limit(Some(s)) == n
  {
  }

  /** A written run of decimal digits other than 0 is taken as the page. */
  lemma PageOfDigits(s: string, n: nat)
    requires s != "" && AllDigits(s) && DigitsValue(s, 10) == n && n != 0
    ensures Page(Some(s)) == n
  {
  }

  lemma LimitOfZero()
    ensures Limit(Some("0")) == 10
  {
    assert ParseInt("0") == Some(0) by { assert "0"[..0] == ""; }
  }

  lemma LimitOfLetters()
    ensures Limit(Some("abc")) == 10
  {
    ParseIntNoDigit("abc");
  }

  /** Text that starts with neither white space, a sign nor a digit is `NaN`. */
  lemma ParseIntNoDigit(s: string)
    requires |s| > 0 && !IsJsSpace(s[0]) && s[0] != '-' && s[0] != '+' && !IsDigit(s[0])
    ensures ParseInt(s).None?
  {
    assert TrimStart(s) == s;
    assert !HasHexPrefix(s);
    assert !IsRadixDigit(s[0], 10);
  }

  /** Any number other than 0 written in decimal is taken as the limit. */
  lemma LimitOfNumber(n: int)
    requires n != 0
    ensures Limit(Some(IntToString(n))) == n
  {
    ParseIntOfIntToString(n);
  }

  /** `hi - 1 < t / l <= hi` with a positive `l` scales to `(hi - 1) * l < t <= hi * l`. */
  lemma CeilBounds(t: real, l: real, hi: real)
    requires l > 0.0 && hi - 1.0 < t / l <= hi
    ensures (hi - 1.0) * l < t <= hi * l
  {
    var x := t / l;
    assert x * l == t;
    MultiplyBounds(hi - 1.0, x, hi, l);
    assert (hi - 1.0) * l < x * l <= hi * l;
  }

  lemma MultiplyBounds(lo: real, x: real, hi: real, c: real)
    requires lo < x <= hi && c > 0.0
    ensures lo * c < x * c <= hi * c
  {
  }
}
