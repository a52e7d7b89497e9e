/** The three smaller Kleinanzeigen.de extractors: the last search query
    (one row per search location), the user profile (seven property rows)
    and the search history (one row per searched keyword). */
module KleinanzeigenPrefs {

  import opened Common

  // ---------------------------------------------------------------------
  // Last search query.

  /** A search location; every field is copied as stored. */
  datatype Location = Location(
    region: Value,
    defaultRadius: Value,
    longitude: Value,
    latitude: Value,
    currentRadius: Value)

  datatype SearchQuery = SearchQuery(
    keywords: Value,
    categoryLocalizedName: Value,
    locations: seq<Location>)

  const LastSearchHeaders: seq<string> := [
    "Keywords", "Category", "Region", "Radius (default)",
    "Longitude", "Latitude", "Radius (current)"]

  /** Reads a location back from its row. */
  function LocationOf(row: seq<Value>): Location
    requires |row| == |LastSearchHeaders|
  {
    Location(row[2], row[3], row[4], row[5], row[6])
  }

  /** The location loop: every row repeats the query's keywords and category
      and carries one location, in stored order, with nothing lost or added. */
  method LastSearch(q: SearchQuery) returns (t: Table)
    ensures t.headers == LastSearchHeaders && Aligned(t)
    ensures |t.rows| == |q.locations|
    ensures forall i :: 0 <= i < |t.rows| ==>
      t.rows[i][0] == q.keywords && t.rows[i][1] == q.categoryLocalizedName &&
      LocationOf(t.rows[i]) == q.locations[i]
  {
    var dataList: seq<seq<Value>> := [];
    var n := 0;
    while n < |q.locations|
      invariant 0 <= n <= |q.locations|
      invariant |dataList| == n
      invariant forall i :: 0 <= i < n ==>
        |dataList[i]| == |LastSearchHeaders| &&
        dataList[i][0] == q.keywords && dataList[i][1] == q.categoryLocalizedName &&
        LocationOf(dataList[i]) == q.locations[i]
    {
      var location := q.locations[n];
      dataList := dataList + [[q.keywords, q.categoryLocalizedName, location.region,
                               location.defaultRadius, location.longitude, location.latitude,
                               location.currentRadius]];
      n := n + 1;
    }
    t := Table(LastSearchHeaders, dataList);
  }

  // ---------------------------------------------------------------------
  // User profile.

  /** The decoded profile; `userSince` and `lastModified` are Cocoa second
      counts. */
  datatype UserProfile = UserProfile(
    email: Value,
    id: Value,
    contactName: Value,
    initials: Value,
    accountType: Value,
    userSince: int,
    lastModified: int)

  const ProfileHeaders: seq<string> := ["Property", "Property Value"]

  const PropertyNames: seq<string> := [
    "Account E-Mail", "Account ID", "Contact Name", "Contact Initials",
    "Account Type", "User since", "Last modified"]

  /** The seven (Property, Value) rows, in the order the extractor writes them. */
  function ProfileRows(u: UserProfile): (rows: seq<seq<Value>>)
    ensures |rows| == |PropertyNames|
    ensures forall i :: 0 <= i < |rows| ==> |rows[i]| == 2 && rows[i][0] == Text(PropertyNames[i])
  {
    [ [Text("Account E-Mail"), u.email],
      [Text("Account ID"), u.id],
      [Text("Contact Name"), u.contactName],
      [Text("Contact Initials"), u.initials],
      [Text("Account Type"), u.accountType],
      [Text("User since"), Time(UnixFromCocoa(u.userSince))],
      [Text("Last modified"), Time(UnixFromCocoa(u.lastModified))] ]
  }

  /** Reads the profile back from its rows, if they have the extractor's shape. */
  function ProfileOf(rows: seq<seq<Value>>): Option<UserProfile>
  {
    if |rows| == |PropertyNames| &&
       (forall i :: 0 <= i < |rows| ==> |rows[i]| == 2 && rows[i][0] == Text(PropertyNames[i])) &&
       rows[5][1].Time? && rows[6][1].Time?
    then Some(UserProfile(rows[0][1], rows[1][1], rows[2][1], rows[3][1], rows[4][1],
                          CocoaFromUnix(rows[5][1].unix), CocoaFromUnix(rows[6][1].unix)))
    else None
  }

  /** The profile rows lose nothing: both dates come back as stored. */
  lemma ProfileRoundTrip(u: UserProfile)
    ensures ProfileOf(ProfileRows(u)) == Some(u)
  {
  }

  /** The seven appends. */
  method UserAccount(u: UserProfile) returns (t: Table)
    ensures t == Table(ProfileHeaders, ProfileRows(u))
    ensures Aligned(t)
  {
    var dataList: seq<seq<Value>> := [];
    dataList := dataList + [[Text("Account E-Mail"), u.email]];
    dataList := dataList + [[Text("Account ID"), u.id]];
    dataList := dataList + [[Text("Contact Name"), u.contactName]];
    dataList := dataList + [[Text("Contact Initials"), u.initials]];
    dataList := dataList + [[Text("Account Type"), u.accountType]];
    dataList := dataList + [[Text("User since"), Time(UnixFromCocoa(u.userSince))]];
    dataList := dataList + [[Text("Last modified"), Time(UnixFromCocoa(u.lastModified))]];
    t := Table(ProfileHeaders, dataList);
  }

  // ---------------------------------------------------------------------
  // Search history.

  /** One searched keyword; `timeStamp` is a Cocoa second count. */
  datatype SearchedKeyword = SearchedKeyword(value: Value, timeStamp: int)

  const HistoryHeaders: seq<string> := ["Keyword", "Timestamp"]

  /** Reads a searched keyword back from its row. */
  function KeywordOf(row: seq<Value>): Option<SearchedKeyword>
  {
    if |row| == 2 && row[1].Time? then Some(SearchedKeyword(row[0], CocoaFromUnix(row[1].unix)))
    else None
  }

  /** The keyword loop: one (keyword, time) row per entry, in stored order,
      each giving back its entry with the stored time stamp. */
  method SearchHistory(history: seq<SearchedKeyword>) returns (t: Table)
    ensures t.headers == HistoryHeaders && Aligned(t)
    ensures |t.rows| == |history|
    ensures forall i :: 0 <= i < |t.rows| ==> KeywordOf(t.rows[i]) == Some(history[i])
  {
    var dataList: seq<seq<Value>> := [];
    var n := 0;
    while n < |history|
      invariant 0 <= n <= |history|
      invariant |dataList| == n
      invariant forall i :: 0 <= i < n ==>
        |dataList[i]| == 2 && KeywordOf(dataList[i]) == Some(history[i])
    {
      var keyword := history[n];
      dataList := dataList + [[keyword.value, Time(UnixFromCocoa(keyword.timeStamp))]];
      n := n + 1;
    }
    t := Table(HistoryHeaders, dataList);
  }
}
