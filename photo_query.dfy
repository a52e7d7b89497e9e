/** The meaning of the shared-library asset query over already-decoded tables:
    ZASSET left-joined with its additional and extended attributes, its cloud
    master, its library-scope share, its contributors and each contributor's
    share participant; filtered on ZACTIVELIBRARYSCOPEPARTICIPATIONSTATE = 1
    and ordered by ZDATECREATED. Nullable columns are `Option`s; dates are
    stored Cocoa second counts. */
module PhotoQuery {

  import opened Common

  /** A ZASSET row (only the columns the query reads). */
  datatype Asset = Asset(
    pk: int,                              // Z_PK
    dateCreated: Option<int>,             // ZDATECREATED
    participationState: Option<int>,      // ZACTIVELIBRARYSCOPEPARTICIPATIONSTATE
    directory: Option<string>,            // ZDIRECTORY
    filename: Option<string>,             // ZFILENAME
    syndicationState: Option<int>,        // ZSYNDICATIONSTATE
    bundleScope: Option<int>,             // ZBUNDLESCOPE
    visibilityState: Option<int>,         // ZVISIBILITYSTATE
    isRecentlySaved: Option<int>,         // ZISRECENTLYSAVED
    savedAssetType: Option<int>,          // ZSAVEDASSETTYPE
    sortToken: Option<int>,               // ZSORTTOKEN
    addedDate: Option<int>,               // ZADDEDDATE
    modificationDate: Option<int>,        // ZMODIFICATIONDATE
    lastSharedDate: Option<int>,          // ZLASTSHAREDDATE
    isDetectedScreenshot: Option<int>,    // ZISDETECTEDSCREENSHOT
    hidden: Option<int>,                  // ZHIDDEN
    adjustmentsState: Option<int>,        // ZADJUSTMENTSSTATE
    avalancheKind: Option<int>,           // ZAVALANCHEKIND
    avalanchePickType: Option<int>,       // ZAVALANCHEPICKTYPE
    trashedState: Option<int>,            // ZTRASHEDSTATE
    trashedDate: Option<int>,             // ZTRASHEDDATE
    trashedByParticipant: Option<int>,    // ZTRASHEDBYPARTICIPANT
    uuid: Option<string>,                 // ZUUID
    additionalAttributes: Option<int>,    // ZADDITIONALATTRIBUTES
    extendedAttributes: Option<int>,      // ZEXTENDEDATTRIBUTES
    master: Option<int>,                  // ZMASTER
    libraryScope: Option<int>)            // ZLIBRARYSCOPE

  /** A ZADDITIONALASSETATTRIBUTES row. */
  datatype AdditionalAttributes = AdditionalAttributes(
    pk: int,
    originalFilename: Option<string>,
    syndicationIdentifier: Option<string>,
    importedBy: Option<int>,
    importedByBundleIdentifier: Option<string>,
    importedByDisplayName: Option<string>,
    shareType: Option<int>,
    timeZoneName: Option<string>,
    exifTimestampString: Option<string>,
    cloudAvalanchePickType: Option<int>,
    masterFingerprint: Option<string>,
    adjustedFingerprint: Option<string>,
    originalStableHash: Option<string>,
    adjustedStableHash: Option<string>)

  /** A ZEXTENDEDATTRIBUTES row. */
  datatype ExtendedAttributes = ExtendedAttributes(
    pk: int,
    cameraMake: Option<string>,
    cameraModel: Option<string>,
    generativeAIType: Option<int>,
    credit: Option<string>)

  /** A ZCLOUDMASTER row. */
  datatype CloudMaster = CloudMaster(
    pk: int,
    originalFilename: Option<string>,
    creationDate: Option<int>)

  /** A ZSHARE row. */
  datatype Share = Share(
    pk: int,
    title: Option<string>,
    shareURL: Option<string>,
    scopeIdentifier: Option<string>,
    creationDate: Option<int>,
    expiryDate: Option<int>,
    cloudPhotoCount: Option<int>,
    assetsAddedByCameraSmartSharing: Option<int>,
    cloudVideoCount: Option<int>,
    status: Option<int>,
    scopeType: Option<int>)

  /** A ZASSETCONTRIBUTOR row: which participant contributed which asset. */
  datatype AssetContributor = AssetContributor(
    pk: int,
    asset: Option<int>,                   // Z3LIBRARYSCOPEASSETCONTRIBUTORS
    participant: Option<int>)             // ZPARTICIPANT

  /** A ZSHAREPARTICIPANT row. */
  datatype ShareParticipant = ShareParticipant(
    pk: int,
    isCurrentUser: Option<int>,
    role: Option<int>,
    emailAddress: Option<string>,
    phoneNumber: Option<string>,
    z54Share: Option<int>)

  /** The tables of Photos.sqlite the query reads, rows in storage order. */
  datatype Database = Database(
    assets: seq<Asset>,
    additional: seq<AdditionalAttributes>,
    extended: seq<ExtendedAttributes>,
    masters: seq<CloudMaster>,
    shares: seq<Share>,
    contributors: seq<AssetContributor>,
    participants: seq<ShareParticipant>)

  /** One row of the joined relation; an absent left-joined record is None,
      and every column taken from it reads NULL. */
  datatype JoinedRow = JoinedRow(
    asset: Asset,
    additional: Option<AdditionalAttributes>,
    extended: Option<ExtendedAttributes>,
    master: Option<CloudMaster>,
    share: Option<Share>,
    contributor: Option<AssetContributor>,
    participant: Option<ShareParticipant>)

  /** A column of a left-joined record: NULL when the record is absent. */
  function Field<R, T>(o: Option<R>, f: R -> Option<T>): Option<T>
  {
    if o.Some? then f(o.value) else None
  }

  // ---------------------------------------------------------------------
  // Joins on a primary key. Z_PK is unique in every table, so the first row
  // whose key equals the foreign key is the only one. A NULL foreign key
  // equals nothing.

  function FindByKey<R>(rows: seq<R>, key: R -> int, fk: Option<int>): (r: Option<R>)
    ensures r.Some? ==> fk.Some? && r.value in rows && key(r.value) == fk.value
    ensures r.None? ==> fk.None? || forall i :: 0 <= i < |rows| ==> key(rows[i]) != fk.value
  {
    if fk.None? || rows == [] then None
    else if key(rows[0]) == fk.value then Some(rows[0])
    else FindByKey(rows[1..], key, fk)
  }

  /** The contributor rows of asset pk, in table order. */
  function Contributors(cs: seq<AssetContributor>, pk: int): (r: seq<AssetContributor>)
    ensures forall c :: c in r <==> c in cs && c.asset == Some(pk)
    ensures forall c :: multiset(r)[c] == if c.asset == Some(pk) then multiset(cs)[c] else 0
    ensures |r| <= |cs|
  {
    assert cs != [] ==> cs == [cs[0]] + cs[1..];
    if cs == [] then []
    else if cs[0].asset == Some(pk) then [cs[0]] + Contributors(cs[1..], pk)
    else Contributors(cs[1..], pk)
  }

  /** The rows the joins produce for one asset: one per contributor, each with
      that contributor's participant, or a single row with NULL contributor
      and participant columns when the asset has no contributor. */
  function JoinAsset(db: Database, a: Asset): (rows: seq<JoinedRow>)
    ensures |rows| >= 1
    ensures forall r :: r in rows ==>
      && r.asset == a
      && r.additional == FindByKey(db.additional, (x: AdditionalAttributes) => x.pk, a.additionalAttributes)
      && r.extended == FindByKey(db.extended, (x: ExtendedAttributes) => x.pk, a.extendedAttributes)
      && r.share == FindByKey(db.shares, (s: Share) => s.pk, a.libraryScope)
      && r.master == FindByKey(db.masters, (m: CloudMaster) => m.pk, a.master)
      && (r.contributor.None? <==> Contributors(db.contributors, a.pk) == [])
      && (r.contributor.Some? ==> r.contributor.value in db.contributors && r.contributor.value.asset == Some(a.pk))
      && (r.contributor.None? ==> r.participant.None?)
      && (r.contributor.Some? ==>
            r.participant == FindByKey(db.participants, (p: ShareParticipant) => p.pk, r.contributor.value.participant))
  {
    var add := FindByKey(db.additional, (r: AdditionalAttributes) => r.pk, a.additionalAttributes);
    var ext := FindByKey(db.extended, (r: ExtendedAttributes) => r.pk, a.extendedAttributes);
    var master := FindByKey(db.masters, (r: CloudMaster) => r.pk, a.master);
    var share := FindByKey(db.shares, (r: Share) => r.pk, a.libraryScope);
    var cs := Contributors(db.contributors, a.pk);
    if cs == [] then [JoinedRow(a, add, ext, master, share, None, None)]
    else
      seq(|cs|, i requires 0 <= i < |cs| =>
        JoinedRow(a, add, ext, master, share, Some(cs[i]),
                  FindByKey(db.participants, (p: ShareParticipant) => p.pk, cs[i].participant)))
  }

  /** The WHERE clause. */
  predicate InActiveLibraryScope(a: Asset)
  {
    a.participationState == Some(1)
  }

  /** The filtered join, asset by asset in table order, before sorting. */
  function JoinAll(db: Database, assets: seq<Asset>): (rows: seq<JoinedRow>)
    ensures forall r :: r in rows ==> r.asset in assets && InActiveLibraryScope(r.asset)
  {
    if assets == [] then []
    else
      var rest := JoinAll(db, assets[1..]);
      if InActiveLibraryScope(assets[0]) then JoinAsset(db, assets[0]) + rest else rest
  }

  // ---------------------------------------------------------------------
  // ORDER BY ZDATECREATED: ascending, NULL first. SQL leaves the order of
  // rows with equal dates open; this model keeps them in join order.

  predicate DateLe(x: Option<int>, y: Option<int>)
  {
    x.None? || (y.Some? && x.value <= y.value)
  }

  function DateKey(r: JoinedRow): Option<int>
  {
    r.asset.dateCreated
  }

  predicate SortedByDate(s: seq<JoinedRow>)
  {
    forall i, j :: 0 <= i < j < |s| ==> DateLe(DateKey(s[i]), DateKey(s[j]))
  }

  function Insert(x: JoinedRow, s: seq<JoinedRow>): (r: seq<JoinedRow>)
    ensures multiset(r) == multiset(s) + multiset{x}
    ensures |r| == |s| + 1
    ensures SortedByDate(s) ==> SortedByDate(r)
  {
    if s == [] then [x]
    else if DateLe(DateKey(x), DateKey(s[0])) then
      var r := [x] + s;
      assert SortedByDate(s) ==> forall k :: 0 <= k < |s| ==> DateLe(DateKey(x), DateKey(s[k]))
        by { if SortedByDate(s) { assert forall k :: 0 < k < |s| ==> DateLe(DateKey(s[0]), DateKey(s[k])); } }
      r
    else
      var tail := Insert(x, s[1..]);
      var r := [s[0]] + tail;
      assert s == [s[0]] + s[1..];
      assert SortedByDate(s) ==> SortedByDate(r) by {
        if SortedByDate(s) {
          forall k | 0 <= k < |tail| ensures DateLe(DateKey(s[0]), DateKey(tail[k])) {
            assert tail[k] in multiset(tail);
            assert tail[k] == x || tail[k] in multiset(s[1..]);
            if tail[k] != x {
              var m :| 0 <= m < |s[1..]| && s[1..][m] == tail[k];
              assert s[m + 1] == tail[k];
            }
          }
        }
      }
      r
  }

  /** A stable insertion sort on the creation date. */
  function SortByDate(s: seq<JoinedRow>): (r: seq<JoinedRow>)
    ensures multiset(r) == multiset(s)
    ensures |r| == |s|
    ensures SortedByDate(r)
  {
    if s == [] then []
    else
      assert s == [s[0]] + s[1..];
      Insert(s[0], SortByDate(s[1..]))
  }

  /** The rows the query fetches, in fetch order. */
  function Query(db: Database): (rows: seq<JoinedRow>)
    ensures forall r :: r in rows ==> r.asset in db.assets && InActiveLibraryScope(r.asset)
    ensures SortedByDate(rows)
    ensures multiset(rows) == multiset(JoinAll(db, db.assets))
  {
    var joined := JoinAll(db, db.assets);
    var rows := SortByDate(joined);
    assert forall r :: r in rows ==> r in joined by {
      forall r | r in rows ensures r in joined {
        assert r in multiset(rows);
      }
    }
    rows
  }

  // ---------------------------------------------------------------------
  // What the query guarantees.

  /** The number of rows the join gives one asset: its contributor count, but
      at least one. */
  function RowsForAsset(db: Database, a: Asset): nat
  {
    var k := |Contributors(db.contributors, a.pk)|;
    if k == 0 then 1 else k
  }

  /** The number of rows the query fetches, summed over qualifying assets. */
  function ExpectedRowCount(db: Database, assets: seq<Asset>): nat
  {
    if assets == [] then 0
    else (if InActiveLibraryScope(assets[0]) then RowsForAsset(db, assets[0]) else 0)
         + ExpectedRowCount(db, assets[1..])
  }

  /** Every joined row of an asset carries that asset, and one asset gives
      max(1, k) rows for k contributors; the i-th row carries the i-th
      contributor and the participant that contributor points to. */
  lemma JoinAssetShape(db: Database, a: Asset)
    ensures |JoinAsset(db, a)| == RowsForAsset(db, a)
    ensures forall r :: r in JoinAsset(db, a) ==> r.asset == a
    ensures Contributors(db.contributors, a.pk) == [] ==>
      JoinAsset(db, a)[0].contributor.None? && JoinAsset(db, a)[0].participant.None?
    ensures forall i :: 0 <= i < |Contributors(db.contributors, a.pk)| ==>
      JoinAsset(db, a)[i].contributor == Some(Contributors(db.contributors, a.pk)[i]) &&
      JoinAsset(db, a)[i].participant ==
        FindByKey(db.participants, (p: ShareParticipant) => p.pk, Contributors(db.contributors, a.pk)[i].participant)
  {
  }

  lemma {:induction false} JoinAllCount(db: Database, assets: seq<Asset>)
    ensures |JoinAll(db, assets)| == ExpectedRowCount(db, assets)
  {
    if assets != [] {
      JoinAllCount(db, assets[1..]);
      JoinAssetShape(db, assets[0]);
    }
  }

  /** Every qualifying asset keeps all of its joined rows, even with no
      share, contributor or participant match. */
  lemma {:induction false} JoinAllKeepsAsset(db: Database, assets: seq<Asset>, a: Asset)
    requires a in assets && InActiveLibraryScope(a)
    ensures multiset(JoinAsset(db, a)) <= multiset(JoinAll(db, assets))
  {
    if assets[0] == a {
    } else {
      JoinAllKeepsAsset(db, assets[1..], a);
    }
  }

  /** The fetched rows: only assets in the active library scope, ordered by
      creation date, exactly the joined rows (none lost, none invented), and
      as many as the qualifying assets' max(1, contributors) add up to. */
  lemma QueryContract(db: Database)
    ensures forall r :: r in Query(db) ==> r.asset in db.assets && InActiveLibraryScope(r.asset)
    ensures SortedByDate(Query(db))
    ensures multiset(Query(db)) == multiset(JoinAll(db, db.assets))
    ensures |Query(db)| == ExpectedRowCount(db, db.assets)
  {
    JoinAllCount(db, db.assets);
  }

  /** An asset in the active library scope yields at least one fetched row;
      with k contributors it yields one row per contributor. */
  lemma QualifyingAssetAppears(db: Database, a: Asset)
    requires a in db.assets && InActiveLibraryScope(a)
    ensures exists r :: r in Query(db) && r.asset == a
    ensures forall c :: c in Contributors(db.contributors, a.pk) ==>
      exists r :: r in Query(db) && r.asset == a && r.contributor == Some(c)
  {
    JoinAllKeepsAsset(db, db.assets, a);
    JoinAssetShape(db, a);
    var rows := JoinAsset(db, a);
    assert rows[0] in multiset(rows);
    assert rows[0] in multiset(Query(db));
    forall c | c in Contributors(db.contributors, a.pk)
      ensures exists r :: r in Query(db) && r.asset == a && r.contributor == Some(c)
    {
      var cs := Contributors(db.contributors, a.pk);
      var i :| 0 <= i < |cs| && cs[i] == c;
      assert rows[i] in multiset(rows);
      assert rows[i] in multiset(Query(db));
    }
  }
}
