/// The `LocationSearch` component: the fixed table of forecast cities, the
/// search over it, the lookup of the selected city and the selection
/// handler. A city's code is kept as its number and shown with six digits
/// (`"011000"` is 11000).
module LocationSearch {
  import opened Common
  import opened Text
  import opened Lists

  datatype City = City(code: nat, name: string, prefecture: string)

  /** The six-digit code of a number below one million, with leading zeros:
      the last digit of each of `n`, `n / 10`, ..., `n / 100000`. */
  function CodeText(n: nat): (s: string)
    requires n < 1000000
    ensures |s| == 6
    ensures forall i :: 0 <= i < 6 ==> '0' <= s[i] <= '9'
  {
    var q1 := n / 10;
    var q2 := q1 / 10;
    var q3 := q2 / 10;
    var q4 := q3 / 10;
    var q5 := q4 / 10;
    [DigitChar(q5), DigitChar(q4 % 10), DigitChar(q3 % 10), DigitChar(q2 % 10), DigitChar(q1 % 10), DigitChar(n % 10)]
  }

  function DigitValue(c: char): int
  {
    c as int - '0' as int
  }

  /** The number six decimal digits stand for. */
  function CodeValue(s: string): int
    requires |s| == 6
  {
    ((((DigitValue(s[0]) * 10 + DigitValue(s[1])) * 10 + DigitValue(s[2])) * 10
      + DigitValue(s[3])) * 10 + DigitValue(s[4])) * 10 + DigitValue(s[5])
  }

  /** Reading a rendered code gives the number back. */
  lemma CodeRoundTrip(n: nat)
    requires n < 1000000
    ensures CodeValue(CodeText(n)) == n
  {
    var q1 := n / 10;
    var q2 := q1 / 10;
    var q3 := q2 / 10;
    var q4 := q3 / 10;
    var q5 := q4 / 10;
    var s := CodeText(n);
    assert DigitValue(s[0]) * 10 + DigitValue(s[1]) == q4;
    assert q4 * 10 + DigitValue(s[2]) == q3;
    assert q3 * 10 + DigitValue(s[3]) == q2;
    assert q2 * 10 + DigitValue(s[4]) == q1;
    assert q1 * 10 + DigitValue(s[5]) == n;
  }

  /** Different codes render differently. */
  lemma CodeTextInjective(a: nat, b: nat)
    requires a < 1000000 && b < 1000000
    ensures CodeText(a) == CodeText(b) ==> a == b
  {
    CodeRoundTrip(a);
    CodeRoundTrip(b);
  }

  /** The `cities` table, in its order, written as five blocks of ten. */
  const Cities: seq<City> := CitiesA + CitiesB + CitiesC + CitiesD + CitiesE

  const CitiesA: seq<City> := [
      City(11000, "稚内", "北海道"),
      City(12010, "旭川", "北海道"),
      City(16010, "札幌", "北海道"),
      City(17010, "室蘭", "北海道"),
      City(20010, "青森", "青森県"),
      City(30010, "盛岡", "岩手県"),
      City(40010, "仙台", "宮城県"),
      City(50010, "秋田", "秋田県"),
      City(60010, "山形", "山形県"),
      City(70010, "福島", "福島県")
    ]

  const CitiesB: seq<City> := [
      City(80010, "水戸", "茨城県"),
      City(90010, "宇都宮", "栃木県"),
      City(100010, "前橋", "群馬県"),
      City(110010, "さいたま", "埼玉県"),
      City(120010, "千葉", "千葉県"),
      City(130010, "東京", "東京都"),
      City(140010, "横浜", "神奈川県"),
      City(150010, "新潟", "新潟県"),
      City(160010, "富山", "富山県"),
      City(170010, "金沢", "石川県")
    ]

  const CitiesC: seq<City> := [
      City(180010, "福井", "福井県"),
      City(190010, "甲府", "山梨県"),
      City(200010, "長野", "長野県"),
      City(210010, "岐阜", "岐阜県"),
      City(220010, "静岡", "静岡県"),
      City(230010, "名古屋", "愛知県"),
      City(240010, "津", "三重県"),
      City(250010, "大津", "滋賀県"),
      City(260010, "京都", "京都府"),
      City(270000, "大阪", "大阪府")
    ]

  const CitiesD: seq<City> := [
      City(280010, "神戸", "兵庫県"),
      City(290010, "奈良", "奈良県"),
      City(300010, "和歌山", "和歌山県"),
      City(310010, "鳥取", "鳥取県"),
      City(320010, "松江", "島根県"),
      City(330010, "岡山", "岡山県"),
      City(340010, "広島", "広島県"),
      City(350020, "下関", "山口県"),
      City(360010, "徳島", "徳島県"),
      City(370000, "高松", "香川県")
    ]

  const CitiesE: seq<City> := [
      City(380010, "松山", "愛媛県"),
      City(390010, "高知", "高知県"),
      City(400010, "福岡", "福岡県"),
      City(410010, "佐賀", "佐賀県"),
      City(420010, "長崎", "長崎県"),
      City(430010, "熊本", "熊本県"),
      City(440010, "大分", "大分県"),
      City(450010, "宮崎", "宮崎県"),
      City(460010, "鹿児島", "鹿児島県"),
      City(471010, "那覇", "沖縄県")
    ]

  /** Each code is greater than the one before. */
  predicate StepsUp(s: seq<City>)
  {
    forall i :: 0 < i < |s| ==> s[i - 1].code < s[i].code
  }

  /** Codes strictly increase along the whole sequence. */
  predicate Increasing(s: seq<City>)
  {
    forall i, j :: 0 <= i < j < |s| ==> s[i].code < s[j].code
  }

  lemma {:induction false} StepsUpIncreasing(s: seq<City>)
    requires StepsUp(s)
    ensures Increasing(s)
    decreases |s|
  {
    if |s| > 1 {
      var t := s[1..];
      assert StepsUp(t) by {
        assert forall i :: 0 < i < |t| ==> t[i - 1] == s[i] && t[i] == s[i + 1];
      }
      StepsUpIncreasing(t);
      forall i, j | 0 <= i < j < |s|
        ensures s[i].code < s[j].code
      {
        if i == 0 {
          if j > 1 {
            assert t[0] == s[1] && t[j - 1] == s[j];
          }
        } else {
          assert t[i - 1] == s[i] && t[j - 1] == s[j];
        }
      }
    }
  }

  /** Two sequences that step up, joined where the first ends below the
      second's start, step up. */
  lemma StepsUpAppend(a: seq<City>, b: seq<City>)
    requires StepsUp(a) && StepsUp(b)
    requires a != [] && b != [] && a[|a| - 1].code < b[0].code
    ensures StepsUp(a + b)
  {
    var ab := a + b;
    forall i | 0 < i < |ab|
      ensures ab[i - 1].code < ab[i].code
    {
      if i > |a| {
        assert ab[i - 1] == b[i - 1 - |a|] && ab[i] == b[i - |a|];
      }
    }
  }

  /** Each block steps up on its own. */
  lemma BlocksStepUp()
    ensures StepsUp(CitiesA) && StepsUp(CitiesB) && StepsUp(CitiesC)
    ensures StepsUp(CitiesD) && StepsUp(CitiesE)
  {
    CitiesAStepUp();
    CitiesBStepUp();
    CitiesCStepUp();
    CitiesDStepUp();
    CitiesEStepUp();
  }

  /** The blocks are checked one at a time, each on its own. */
  lemma CitiesAStepUp()
    ensures StepsUp(CitiesA)
  {
  }

  lemma CitiesBStepUp()
    ensures StepsUp(CitiesB)
  {
  }

  lemma CitiesCStepUp()
    ensures StepsUp(CitiesC)
  {
  }

  lemma CitiesDStepUp()
    ensures StepsUp(CitiesD)
  {
  }

  lemma CitiesEStepUp()
    ensures StepsUp(CitiesE)
  {
  }

  /** The whole table steps up: each block does, and each block ends below
      the next one's start. */
  lemma TableStepsUp()
    ensures StepsUp(Cities)
    ensures |Cities| == 50 && Cities[49].code == 471010
  {
    BlocksStepUp();
    var ab := CitiesA + CitiesB;
    StepsUpAppend(CitiesA, CitiesB);
    var abc := ab + CitiesC;
    StepsUpAppend(ab, CitiesC);
    var abcd := abc + CitiesD;
    StepsUpAppend(abc, CitiesD);
    StepsUpAppend(abcd, CitiesE);
    assert Cities[49] == CitiesE[9];
  }

  /** The table is ordered by code, so no two cities share a code. */
  lemma TableIncreasing()
    ensures Increasing(Cities)
  {
    TableStepsUp();
    StepsUpIncreasing(Cities);
  }

  /** Every code in the table has six digits. */
  lemma TableCodes()
    ensures forall c :: c in Cities ==> c.code < 1000000
  {
    TableStepsUp();
    TableIncreasing();
    var table := Cities;
    forall c | c in table
      ensures c.code < 1000000
    {
      var k :| 0 <= k < |table| && table[k] == c;
      assert k < 49 ==> table[k].code < table[49].code;
    }
  }

  /** An increasing sequence of six-digit codes never repeats a code. */
  lemma {:induction false} UniqueCodes(s: seq<City>, c1: City, c2: City)
    requires Increasing(s) && forall c :: c in s ==> c.code < 1000000
    requires c1 in s && c2 in s && CodeText(c1.code) == CodeText(c2.code)
    ensures c1 == c2
  {
    CodeTextInjective(c1.code, c2.code);
    var i :| 0 <= i < |s| && s[i] == c1;
    var j :| 0 <= j < |s| && s[j] == c2;
    assert i == j;
  }

  /** `city.name.includes(term) || city.prefecture.includes(term)` */
  function Matcher(term: string): City -> bool
  {
    (c: City) => Contains(c.name, term) || Contains(c.prefecture, term)
  }

  /** The search of `filteredCities` over a table: the matching cities,
      in table order. */
  function Search(table: seq<City>, term: string): (r: seq<City>)
    ensures |r| <= |table|
    ensures forall c :: c in r <==> c in table && (Contains(c.name, term) || Contains(c.prefecture, term))
  {
    Filter(table, Matcher(term))
  }

  /** `filteredCities` */
  function FilteredCities(term: string): (r: seq<City>)
    ensures |r| <= |Cities|
    ensures forall c :: c in r <==> c in Cities && (Contains(c.name, term) || Contains(c.prefecture, term))
  {
    Search(Cities, term)
  }

  /** Filtering keeps the order of the codes. */
  lemma {:induction false} FilterIncreasing(s: seq<City>, keep: City -> bool)
    requires Increasing(s)
    ensures Increasing(Filter(s, keep))
    decreases |s|
  {
    if s != [] {
      var t := s[1..];
      assert Increasing(t) by {
        assert forall i :: 0 <= i < |t| ==> t[i] == s[i + 1];
      }
      FilterIncreasing(t, keep);
      var rest := Filter(t, keep);
      var r := Filter(s, keep);
      if keep(s[0]) {
        assert r == [s[0]] + rest;
        forall i, j | 0 <= i < j < |r|
          ensures r[i].code < r[j].code
        {
          assert r[j] == rest[j - 1];
          if i == 0 {
            assert rest[j - 1] in rest;
            var k :| 0 <= k < |t| && t[k] == rest[j - 1];
            assert t[k] == s[k + 1];
          } else {
            assert r[i] == rest[i - 1];
          }
        }
      } else {
        assert r == rest;
      }
    }
  }

  /** On a table ordered by code the result keeps that order, and an empty
      search term keeps the whole table. */
  lemma SearchMeaning(table: seq<City>, term: string)
    ensures Increasing(table) ==> Increasing(Search(table, term))
    ensures term == "" ==> Search(table, term) == table
  {
    if Increasing(table) {
      FilterIncreasing(table, Matcher(term));
    }
    if term == "" {
      forall c | c in table
        ensures Matcher(term)(c)
      {
        ContainsEmpty(c.name);
      }
      FilterAll(table, Matcher(term));
    }
  }

  /** The cities found are listed in table order, and an empty search term
      lists the whole table. */
  lemma FilteredCitiesMeaning(term: string)
    ensures Increasing(FilteredCities(term))
    ensures term == "" ==> FilteredCities(term) == Cities
  {
    TableIncreasing();
    SearchMeaning(Cities, term);
  }

  /** `city.code === selected`, for a code with six digits. */
  predicate HasCode(c: City, selected: string)
  {
    c.code < 1000000 && CodeText(c.code) == selected
  }

  /** `cities.find(city => city.code === selectedCity)` */
  function FindCity(s: seq<City>, selected: string): (r: Option<City>)
    ensures r.Some? ==> r.value in s && HasCode(r.value, selected)
    ensures r.None? ==> forall c :: c in s ==> !HasCode(c, selected)
    decreases |s|
  {
    if s == [] then None
    else if HasCode(s[0], selected) then Some(s[0])
    else FindCity(s[1..], selected)
  }

  /** In a sequence of unique six-digit codes the city found is the only
      one with the selected code. */
  lemma FindCityUnique(s: seq<City>, selected: string)
    requires Increasing(s) && forall c :: c in s ==> c.code < 1000000
    ensures forall c :: c in s && HasCode(c, selected) ==> FindCity(s, selected) == Some(c)
  {
    var r := FindCity(s, selected);
    forall c | c in s && HasCode(c, selected)
      ensures r == Some(c)
    {
      UniqueCodes(s, r.value, c);
    }
  }

  /** `selectedCityData` */
  function SelectedCity(selected: string): (r: Option<City>)
    ensures r.Some? ==> r.value in Cities && HasCode(r.value, selected)
    ensures r.None? ==> forall c :: c in Cities ==> !HasCode(c, selected)
  {
    FindCity(Cities, selected)
  }

  /** The selected city is found exactly when the table has its code, and
      then it is the one city with that code. */
  lemma SelectedCityMeaning(selected: string)
    ensures SelectedCity(selected).Some? <==> exists c :: c in Cities && HasCode(c, selected)
    ensures forall c :: c in Cities && HasCode(c, selected) ==> SelectedCity(selected) == Some(c)
  {
    TableIncreasing();
    TableCodes();
    FindCityUnique(Cities, selected);
  }

  /** The button label: `name - prefecture` of the selected city, or the
      prompt to choose one. */
  function SelectedLabel(found: Option<City>): (text: string)
    ensures found.None? ==> text == "地域を選択"
    ensures found.Some? ==> StartsWith(text, found.value.name) && EndsWith(text, found.value.prefecture)
                            && |text| == |found.value.name| + 3 + |found.value.prefecture|
  {
    match found
    case None => "地域を選択"
    case Some(c) => c.name + " - " + c.prefecture
  }

  class CitySearch {
    var searchTerm: string
    var isOpen: bool

    constructor ()
      ensures searchTerm == "" && !isOpen
    {
      searchTerm := "";
      isOpen := false;
    }

    /** The cities the open list shows. */
    function Shown(): seq<City>
      reads this
    {
      FilteredCities(searchTerm)
    }

    /** The button toggles the list. */
    method Toggle()
      modifies this
      ensures isOpen == !old(isOpen) && searchTerm == old(searchTerm)
    {
      isOpen := !isOpen;
    }

    /** Typing in the search box. */
    method UpdateSearchTerm(term: string)
      modifies this
      ensures searchTerm == term && isOpen == old(isOpen)
    {
      searchTerm := term;
    }

    /** `handleCitySelect`: reports the code to `onLocationChange`, closes
        the list and clears the search, so the list shows the whole table
        when opened again. */
    method HandleCitySelect(cityCode: string) returns (reported: string)
      modifies this
      ensures reported == cityCode
      ensures !isOpen && searchTerm == ""
      ensures Shown() == Cities
    {
      reported := cityCode;
      isOpen := false;
      searchTerm := "";
      SearchMeaning(Cities, searchTerm);
    }
  }
}
