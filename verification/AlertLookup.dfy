/**
 Finding the alert configuration for an alert: membership in a JSON column is decided by a LIKE search in the
 column's text, first among the team's configurations, then among the tenant-wide ones.
 */
module AlertLookup {
  import opened Common

  datatype AlertType = Sos | SafetyConcern | RouteDeviation | Delayed | Accident | Medical | Other

  function NameOf(t: AlertType): string {
    match t
    case Sos => "SOS"
    case SafetyConcern => "SAFETY_CONCERN"
    case RouteDeviation => "ROUTE_DEVIATION"
    case Delayed => "DELAYED"
    case Accident => "ACCIDENT"
    case Medical => "MEDICAL"
    case Other => "OTHER"
  }

  // ---------- The text search ----------

  function Quoted(name: string): string {
    ['"'] + name + ['"']
  }

  /** What follows the opening bracket in the JSON text of a list of names. */
  function Items(names: seq<string>): string {
    if names == [] then "]"
    else Quoted(names[0]) + if |names| == 1 then "]" else ", " + Items(names[1..])
  }

  function JsonText(names: seq<string>): string {
    "[" + Items(names)
  }

  const ANY := '_'

  /** LIKE at one position: an underscore in the pattern stands for any one character. */
  predicate MatchesAt(pattern: string, text: string, at: nat) {
    at + |pattern| <= |text| && forall i :: 0 <= i < |pattern| ==> pattern[i] == ANY || pattern[i] == text[at + i]
  }

  predicate Contains(text: string, pattern: string) {
    exists at :: 0 <= at <= |text| && MatchesAt(pattern, text, at)
  }

  predicate Like(pattern: string, name: string) {
    |pattern| == |name| && MatchesAt(pattern, name, 0)
  }

  predicate PlainChar(c: char) {
    'A' <= c <= 'Z' || c == ANY
  }

  predicate Plain(name: string) {
    name != "" && forall i :: 0 <= i < |name| ==> PlainChar(name[i])
  }

  /** No underscore at the front, and no two in a row. */
  predicate Spaced(name: string) {
    Plain(name) && name[0] != ANY && forall i :: 0 <= i < |name| - 1 ==> name[i] != ANY || name[i + 1] != ANY
  }

  lemma QuotedShape(name: string, rest: string)
    ensures var s, n := Quoted(name) + rest, |name|;
            && |s| == n + 2 + |rest| && s[0] == '"' == s[n + 1] && s[n + 2..] == rest
            && forall i :: 0 <= i < n ==> s[1 + i] == name[i]
  {
  }

  /** Where the parts of the first item lie. */
  lemma ItemsShape(names: seq<string>)
    requires names != []
    ensures var s, n := Items(names), |names[0]|;
            && |s| >= n + 3 && s[0] == '"' == s[n + 1] && (forall i :: 0 <= i < n ==> s[1 + i] == names[0][i])
            && (if |names| == 1 then s[n + 2] == ']' && |s| == n + 3
                else s[n + 2] == ',' && |s| >= n + 4 && s[n + 3] == ' ' && s[n + 4..] == Items(names[1..]))
  {
    var s, n := Items(names), |names[0]|;
    var rest := if |names| == 1 then "]" else ", " + Items(names[1..]);
    QuotedShape(names[0], rest);
    assert s == Quoted(names[0]) + rest;
    assert s[n + 2] == rest[0];
    if |names| > 1 {
      assert s[n + 3] == rest[1];
      assert s[n + 4..] == rest[2..] == Items(names[1..]);
    }
  }

  /** Past the opening quote, a plain character stands here or next, or the closing quote does. */
  predicate PlainNearby(s: string, i: nat) {
    i + 2 < |s| && (PlainChar(s[i + 1]) || PlainChar(s[i + 2]) || s[i + 2] == '"')
  }

  lemma QuotedMatch(x: string, s: string, at: nat)
    requires Plain(x) && MatchesAt(Quoted(x), s, at)
    ensures s[at] == '"' == s[at + |x| + 1] && forall i :: 0 <= i < |x| ==> x[i] == ANY || x[i] == s[at + 1 + i]
  {
    var q, m := Quoted(x), |x|;
    assert q[0] == '"' == q[m + 1] && forall i :: 0 <= i < m ==> q[1 + i] == x[i];
  }

  /** A match that starts at an opening quote is a match of that whole item. */
  lemma MatchAtFront(names: seq<string>, x: string)
    requires names != [] && Plain(names[0]) && Spaced(x) && MatchesAt(Quoted(x), Items(names), 0)
    ensures Like(x, names[0])
  {
    ItemsShape(names);
    QuotedMatch(x, Items(names), 0);
    NotShorter(names, x);
    NotLonger(names, x);
  }

  lemma NotShorter(names: seq<string>, x: string)
    requires names != [] && Plain(names[0]) && Plain(x) && MatchesAt(Quoted(x), Items(names), 0)
    ensures |x| >= |names[0]|
  {
    ItemsShape(names);
    QuotedMatch(x, Items(names), 0);
    assert forall i :: 1 <= i <= |names[0]| ==> Items(names)[i] == names[0][i - 1];
  }

  lemma NotLonger(names: seq<string>, x: string)
    requires names != [] && Spaced(x) && MatchesAt(Quoted(x), Items(names), 0)
    ensures |x| <= |names[0]|
  {
    ItemsShape(names);
    var s, n, m := Items(names), |names[0]|, |x|;
    EveryPlaceIsPlain(s, x);
    assert PlainNearby(s, n) ==> m <= n;
  }

  lemma EveryPlaceIsPlain(s: string, x: string)
    requires Spaced(x) && MatchesAt(Quoted(x), s, 0)
    ensures forall k :: 0 <= k < |x| ==> PlainNearby(s, k)
  {
    QuotedMatch(x, s, 0);
    forall k | 0 <= k < |x| ensures PlainNearby(s, k) {
      assert x[k] == ANY || x[k] == s[1 + k];
      assert k + 1 < |x| ==> x[k] != ANY || x[k + 1] != ANY;
    }
  }

  lemma MatchInTail(pattern: string, s: string, from: nat, at: nat)
    requires from <= |s| && from <= at
    ensures MatchesAt(pattern, s, at) <==> MatchesAt(pattern, s[from..], at - from)
  {
    var tail := s[from..];
    if at + |pattern| <= |s| {
      if MatchesAt(pattern, s, at) {
        forall i | 0 <= i < |pattern| ensures pattern[i] == ANY || pattern[i] == tail[at - from + i] {
          assert pattern[i] == ANY || pattern[i] == s[at + i];
        }
      }
      if MatchesAt(pattern, tail, at - from) {
        forall i | 0 <= i < |pattern| ensures pattern[i] == ANY || pattern[i] == s[at + i] {
          assert pattern[i] == ANY || pattern[i] == tail[at - from + i];
        }
      }
    }
  }

  /** A match elsewhere starts in a later item: every other quote in sight closes an item. */
  lemma {:induction false} MatchIsItem(names: seq<string>, x: string, at: nat)
    requires (forall i :: 0 <= i < |names| ==> Plain(names[i])) && Spaced(x) && MatchesAt(Quoted(x), Items(names), at)
    ensures exists i :: 0 <= i < |names| && Like(x, names[i])
  {
    var s, q := Items(names), Quoted(x);
    QuotedMatch(x, s, at);
    assert PlainChar(s[at + 1]);
    if names != [] {
      ItemsShape(names);
      var n := |names[0]|;
      if at == 0 {
        MatchAtFront(names, x);
      } else {
        assert forall i :: 1 <= i <= n ==> s[i] == names[0][i - 1];
        assert at >= n + 4;
        MatchInTail(q, s, n + 4, at);
        MatchIsItem(names[1..], x, at - (n + 4));
      }
    }
  }

  lemma {:induction false} ItemMatches(names: seq<string>, i: nat, x: string) returns (at: nat)
    requires i < |names| && Like(x, names[i])
    ensures MatchesAt(Quoted(x), Items(names), at)
  {
    ItemsShape(names);
    var s, q, n := Items(names), Quoted(x), |names[0]|;
    if i == 0 {
      at := 0;
      assert forall k :: 0 <= k < |x| ==> q[1 + k] == x[k];
      forall k | 0 <= k < |q| ensures q[k] == ANY || q[k] == s[k] {
        if 0 < k <= |x| {
          assert q[k] == x[k - 1] && s[k] == names[0][k - 1];
        }
      }
    } else {
      var rest := ItemMatches(names[1..], i - 1, x);
      at := n + 4 + rest;
      MatchInTail(q, s, n + 4, at);
    }
  }

  /** The search finds exactly the lists with a like-named item, never a match across items. */
  lemma SearchFindsItems(names: seq<string>, x: string)
    requires (forall i :: 0 <= i < |names| ==> Plain(names[i])) && Spaced(x)
    ensures Contains(JsonText(names), Quoted(x)) <==> exists i :: 0 <= i < |names| && Like(x, names[i])
  {
    var s, q, text := Items(names), Quoted(x), JsonText(names);
    if at :| 0 <= at <= |text| && MatchesAt(q, text, at) {
      QuotedMatch(x, text, at);
      assert at > 0 && text[1..] == s;
      MatchInTail(q, text, 1, at);
      MatchIsItem(names, x, at - 1);
    }
    if i :| 0 <= i < |names| && Like(x, names[i]) {
      var at := ItemMatches(names, i, x);
      assert text[1..] == s;
      MatchInTail(q, text, 1, at + 1);
      assert MatchesAt(q, text, at + 1);
    }
  }

  /** The spacing matters: a name that starts with an underscore is found where it is not an item. */
  lemma LeadingUnderscoreMisleads()
    ensures Contains(JsonText(["AB"]), Quoted("_B")) && "_B" !in ["AB"]
  {
    assert JsonText(["AB"]) == "[" + Quoted("AB") + "]";
    assert MatchesAt(Quoted("_B"), JsonText(["AB"]), 1);
  }

  lemma LettersAreSpaced(name: string)
    requires name != "" && forall i :: 0 <= i < |name| ==> 'A' <= name[i] <= 'Z'
    ensures Spaced(name)
  {
  }

  lemma TwoWordsAreSpaced(a: string, b: string)
    requires a != "" && forall i :: 0 <= i < |a| ==> 'A' <= a[i] <= 'Z'
    requires b != "" && forall i :: 0 <= i < |b| ==> 'A' <= b[i] <= 'Z'
    ensures Spaced(a + [ANY] + b)
  {
  }

  lemma NamesAreSpaced(t: AlertType)
    ensures Spaced(NameOf(t))
  {
    match t
    case SafetyConcern =>
      TwoWordsAreSpaced("SAFETY", "CONCERN");
      assert "SAFETY" + [ANY] + "CONCERN" == NameOf(t);
    case RouteDeviation =>
      TwoWordsAreSpaced("ROUTE", "DEVIATION");
      assert "ROUTE" + [ANY] + "DEVIATION" == NameOf(t);
    case Sos => LettersAreSpaced("SOS");
    case Delayed => LettersAreSpaced("DELAYED");
    case Accident => LettersAreSpaced("ACCIDENT");
    case Medical => LettersAreSpaced("MEDICAL");
    case Other => LettersAreSpaced("OTHER");
  }

  /** No type's name is LIKE another's, underscores and all. */
  lemma NamesAreUnlike(t: AlertType, u: AlertType)
    ensures Like(NameOf(t), NameOf(u)) <==> t == u
  {
    if t != u && |NameOf(t)| == |NameOf(u)| {
      assert NameOf(t)[0] != NameOf(u)[0];
    }
  }

  function Names(types: seq<AlertType>): seq<string> {
    seq(|types|, i requires 0 <= i < |types| => NameOf(types[i]))
  }

  /** Over the enum, the search is exactly membership. */
  lemma SearchIsMembership(types: seq<AlertType>, t: AlertType)
    ensures Contains(JsonText(Names(types)), Quoted(NameOf(t))) <==> t in types
  {
    var names, x := Names(types), NameOf(t);
    NamesAreSpaced(t);
    forall i | 0 <= i < |names| ensures Plain(names[i]) && (Like(x, names[i]) <==> types[i] == t) {
      NamesAreSpaced(types[i]);
      NamesAreUnlike(t, types[i]);
    }
    SearchFindsItems(names, x);
  }

  // ---------- The lookup ----------

  // The JSON column: SQL NULL, a JSON null, or a list.
  datatype Types = SqlNull | JsonNull | Listed(types: seq<AlertType>)

  datatype Config = Config(id: int, tenant: string, team: Option<int>, active: bool, priority: int, types: Types)

  /** IS NULL, or the column's text contains the quoted name. */
  predicate Selected(c: Config, t: AlertType) {
    c.types.SqlNull?
    || Contains(if c.types.JsonNull? then "null" else JsonText(Names(c.types.types)), Quoted(NameOf(t)))
  }

  /** The first row of a list ordered by descending priority; `rows` is the order the database breaks ties by. */
  function First(rows: seq<Config>): Option<Config> {
    if rows == [] then None else
      var init, last := First(rows[..|rows| - 1]), rows[|rows| - 1];
      if init.None? || init.value.priority < last.priority then Some(last) else init
  }

  function Rows(rows: seq<Config>, tenant: string, team: Option<int>, t: AlertType): seq<Config> {
    if rows == [] then [] else
      var c := rows[|rows| - 1];
      Rows(rows[..|rows| - 1], tenant, team, t)
      + if c.tenant == tenant && c.active && c.team == team && Selected(c, t) then [c] else []
  }

  function GetApplicable(rows: seq<Config>, tenant: string, t: AlertType, team: Option<int>): Option<Config> {
    var own := if Truthy(team) then First(Rows(rows, tenant, team, t)) else None;
    if own.Some? then own else First(Rows(rows, tenant, None, t))
  }

  /** What a configuration is meant to cover; a JSON null covers nothing. */
  predicate Covers(c: Config, t: AlertType) {
    c.types.SqlNull? || (c.types.Listed? && t in c.types.types)
  }

  lemma SelectedIsCovered(c: Config, t: AlertType)
    ensures Selected(c, t) <==> Covers(c, t)
  {
    if c.types.Listed? {
      SearchIsMembership(c.types.types, t);
    } else if c.types.JsonNull? {
      NamesAreSpaced(t);
      assert Quoted(NameOf(t))[0] == '"';
      assert forall i :: 0 <= i < |"null"| ==> "null"[i] != '"';
    }
  }

  predicate Candidate(rows: seq<Config>, tenant: string, team: Option<int>, t: AlertType, c: Config) {
    c in rows && c.tenant == tenant && c.active && c.team == team && Covers(c, t)
  }

  lemma {:induction false} RowsAreCandidates(rows: seq<Config>, tenant: string, team: Option<int>, t: AlertType)
    ensures forall c :: c in Rows(rows, tenant, team, t) <==> Candidate(rows, tenant, team, t, c)
  {
    if rows != [] {
      var n := |rows| - 1;
      RowsAreCandidates(rows[..n], tenant, team, t);
      SelectedIsCovered(rows[n], t);
      assert rows == rows[..n] + [rows[n]];
    }
  }

  lemma {:induction false} FirstIsHighest(rows: seq<Config>)
    ensures First(rows).None? <==> rows == []
    ensures First(rows).Some? ==> First(rows).value in rows
    ensures First(rows).Some? ==> forall c :: c in rows ==> c.priority <= First(rows).value.priority
  {
    if rows != [] {
      FirstIsHighest(rows[..|rows| - 1]);
      assert rows == rows[..|rows| - 1] + [rows[|rows| - 1]];
    }
  }

  /** `r` is a candidate of highest priority, or there is none. */
  ghost predicate Best(rows: seq<Config>, tenant: string, team: Option<int>, t: AlertType, r: Option<Config>) {
    && (r.None? ==> forall c :: !Candidate(rows, tenant, team, t, c))
    && (r.Some? ==> Candidate(rows, tenant, team, t, r.value)
                    && forall c :: Candidate(rows, tenant, team, t, c) ==> c.priority <= r.value.priority)
  }

  lemma FirstOfRowsIsBest(rows: seq<Config>, tenant: string, team: Option<int>, t: AlertType)
    ensures Best(rows, tenant, team, t, First(Rows(rows, tenant, team, t)))
  {
    RowsAreCandidates(rows, tenant, team, t);
    FirstIsHighest(Rows(rows, tenant, team, t));
    assert Rows(rows, tenant, team, t) != [] ==> Rows(rows, tenant, team, t)[0] in Rows(rows, tenant, team, t);
  }

  /** The team's best match if the team has one, else the tenant-wide best match, else nothing. */
  lemma LookupIsBestMatch(rows: seq<Config>, tenant: string, t: AlertType, team: Option<int>)
    ensures var r := GetApplicable(rows, tenant, t, team);
            if Truthy(team) && exists c :: Candidate(rows, tenant, team, t, c) then Best(rows, tenant, team, t, r)
            else Best(rows, tenant, None, t, r)
  {
    FirstOfRowsIsBest(rows, tenant, team, t);
    FirstOfRowsIsBest(rows, tenant, None, t);
  }

  /** A configuration saved with an explicit null covers no alert, though the column's comment says all. */
  lemma ExplicitNullCoversNothing(c: Config, t: AlertType)
    requires c.types.JsonNull?
    ensures GetApplicable([c], c.tenant, t, c.team).None?
  {
    LookupIsBestMatch([c], c.tenant, t, c.team);
  }
}
