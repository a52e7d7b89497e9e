/** What the two projections promise about the rows the query fetches. */
module PhotoRows {

  import opened Common
  import opened PhotoTables
  import opened PhotoQuery
  import opened PhotoLayouts

  /** Both layouts open with the same sixteen asset columns. */
  lemma LayoutsShareLeadingColumns(j: JoinedRow)
    ensures ProjectA(j)[..16] == AssetColumns(j)
    ensures ProjectB(j)[..16] == AssetColumns(j)
  {
  }

  lemma ActiveLabel()
    ensures Label(ParticipationStateTable, Some(1)) == Text("1-Asset-In-Active-SPL-1")
  {
    var t := ParticipationStateTable;
    assert t[0].code == 0 && t[1] == Arm(1, "Asset-In-Active-SPL-1");
    assert Lookup(t[1..], 1) == Some(ArmLabel(t[1]));
    assert NatToString(1) == "1";
  }

  /** Column 1 of a row of an asset in the active library scope. */
  lemma ActiveScopeLabel(j: JoinedRow)
    requires InActiveLibraryScope(j.asset)
    ensures ProjectA(j)[1] == Text("1-Asset-In-Active-SPL-1")
    ensures ProjectB(j)[1] == Text("1-Asset-In-Active-SPL-1")
  {
    LayoutsShareLeadingColumns(j);
    assert ProjectA(j)[1] == ProjectA(j)[..16][1];
    assert ProjectB(j)[1] == ProjectB(j)[..16][1];
    ActiveLabel();
  }

  /** Only assets in the active library scope are fetched, so column 1 reads
      the same label in every row of both layouts. */
  lemma ActiveScopeColumnIsConstant(db: Database)
    ensures forall j :: j in Query(db) ==>
      ProjectA(j)[1] == Text("1-Asset-In-Active-SPL-1") &&
      ProjectB(j)[1] == Text("1-Asset-In-Active-SPL-1")
  {
    QueryContract(db);
    forall j | j in Query(db)
      ensures ProjectA(j)[1] == Text("1-Asset-In-Active-SPL-1")
      ensures ProjectB(j)[1] == Text("1-Asset-In-Active-SPL-1")
    {
      ActiveScopeLabel(j);
    }
  }

  /** Column 0 of the fetched rows, in either layout, never goes back in
      time: NULL dates come first, then the Unix times ascend. */
  lemma CreationDatesAscend(db: Database, i: nat, k: nat)
    requires i < k < |Query(db)|
    ensures ProjectA(Query(db)[i])[0].Null? || ProjectA(Query(db)[k])[0].Time?
    ensures ProjectA(Query(db)[i])[0].Time? && ProjectA(Query(db)[k])[0].Time? ==>
      ProjectA(Query(db)[i])[0].unix <= ProjectA(Query(db)[k])[0].unix
    ensures ProjectB(Query(db)[i])[0].Null? || ProjectB(Query(db)[k])[0].Time?
    ensures ProjectB(Query(db)[i])[0].Time? && ProjectB(Query(db)[k])[0].Time? ==>
      ProjectB(Query(db)[i])[0].unix <= ProjectB(Query(db)[k])[0].unix
  {
    assert DateLe(DateKey(Query(db)[i]), DateKey(Query(db)[k]));
  }

  /** A cell produced by a CASE expression gives back its code wherever it
      sits in a row. */
  lemma ColumnRecovers(r: seq<Value>, k: nat, t: CodeTable, code: Option<int>)
    requires k < |r| && r[k] == Label(t, code)
    ensures RecoverCode(r[k]) == code
  {
    LabelRecoversCode(t, code);
  }

  /** The enumerated columns of the shared asset group determine their codes. */
  lemma AssetColumnsRecoverCodes(j: JoinedRow)
    ensures RecoverCode(AssetColumns(j)[1]) == j.asset.participationState
    ensures RecoverCode(AssetColumns(j)[8]) == j.asset.syndicationState
    ensures RecoverCode(AssetColumns(j)[9]) == j.asset.bundleScope
    ensures RecoverCode(AssetColumns(j)[10]) == AddCode(j, (x: AdditionalAttributes) => x.importedBy)
    ensures RecoverCode(AssetColumns(j)[15]) == j.asset.visibilityState
  {
    var a := j.asset;
    var r := AssetColumns(j);
    ColumnRecovers(r, 1, ParticipationStateTable, a.participationState);
    ColumnRecovers(r, 8, SyndicationStateTable, a.syndicationState);
    ColumnRecovers(r, 9, BundleScopeTable, a.bundleScope);
    ColumnRecovers(r, 10, ImportedByTable, AddCode(j, (x: AdditionalAttributes) => x.importedBy));
    ColumnRecovers(r, 15, VisibilityStateTable, a.visibilityState);
  }

  lemma SavedAndBurstRecoverCodes(j: JoinedRow)
    ensures RecoverCode(SavedAndDatedColumns(j)[0]) == j.asset.savedAssetType
    ensures RecoverCode(SavedAndDatedColumns(j)[1]) == AddCode(j, (x: AdditionalAttributes) => x.shareType)
    ensures RecoverCode(BurstAndTrashColumns(j)[0]) == j.asset.avalanchePickType
    ensures RecoverCode(BurstAndTrashColumns(j)[1]) == AddCode(j, (x: AdditionalAttributes) => x.cloudAvalanchePickType)
    ensures RecoverCode(BurstAndTrashColumns(j)[2]) == j.asset.trashedState
  {
    var a := j.asset;
    var s := SavedAndDatedColumns(j);
    var b := BurstAndTrashColumns(j);
    ColumnRecovers(s, 0, SavedAssetTypeTable, a.savedAssetType);
    ColumnRecovers(s, 1, ShareTypeTable, AddCode(j, (x: AdditionalAttributes) => x.shareType));
    ColumnRecovers(b, 0, AvalanchePickTypeTable, a.avalanchePickType);
    ColumnRecovers(b, 1, AvalanchePickTypeTable, AddCode(j, (x: AdditionalAttributes) => x.cloudAvalanchePickType));
    ColumnRecovers(b, 2, TrashedStateTable, a.trashedState);
  }

  lemma ContributionRecoversCodes(j: JoinedRow)
    ensures RecoverCode(ContributionColumns(j)[0]) == ParticipantCode(j, (p: ShareParticipant) => p.isCurrentUser)
    ensures RecoverCode(ContributionColumns(j)[1]) == ParticipantCode(j, (p: ShareParticipant) => p.role)
  {
    var c := ContributionColumns(j);
    ColumnRecovers(c, 0, IsCurrentUserTable, ParticipantCode(j, (p: ShareParticipant) => p.isCurrentUser));
    ColumnRecovers(c, 1, ParticipantRoleTable, ParticipantCode(j, (p: ShareParticipant) => p.role));
  }

  /** Where the column groups sit in layout A. */
  lemma LayoutAGroups(j: JoinedRow)
    ensures ProjectA(j)[..16] == AssetColumns(j)
    ensures ProjectA(j)[16..25] == SavedAndDatedColumns(j)
    ensures ProjectA(j)[26..34] == BurstAndTrashColumns(j)
    ensures ProjectA(j)[36..49] == ContributionColumns(j)
    ensures ProjectA(j)[25] == Label(HiddenTable, j.asset.hidden)
    ensures ProjectA(j)[49..] ==
      [ Label(Z54ShareTable, ParticipantCode(j, (p: ShareParticipant) => p.z54Share)),
        Label(ShareStatusTable, ShareInt(j, (s: Share) => s.status)),
        Label(ShareScopeTypeTable, ShareInt(j, (s: Share) => s.scopeType)) ]
  {
  }

  lemma LayoutAAssetEnums(j: JoinedRow)
    ensures RecoverCode(ProjectA(j)[1]) == j.asset.participationState
    ensures RecoverCode(ProjectA(j)[8]) == j.asset.syndicationState
    ensures RecoverCode(ProjectA(j)[9]) == j.asset.bundleScope
    ensures RecoverCode(ProjectA(j)[10]) == AddCode(j, (x: AdditionalAttributes) => x.importedBy)
    ensures RecoverCode(ProjectA(j)[15]) == j.asset.visibilityState
  {
    var r := ProjectA(j);
    LayoutAGroups(j);
    AssetColumnsRecoverCodes(j);
    assert r[1] == r[..16][1] && r[8] == r[..16][8] && r[9] == r[..16][9];
    assert r[10] == r[..16][10] && r[15] == r[..16][15];
  }

  lemma LayoutASavedEnums(j: JoinedRow)
    ensures RecoverCode(ProjectA(j)[16]) == j.asset.savedAssetType
    ensures RecoverCode(ProjectA(j)[17]) == AddCode(j, (x: AdditionalAttributes) => x.shareType)
    ensures RecoverCode(ProjectA(j)[25]) == j.asset.hidden
  {
    var r := ProjectA(j);
    LayoutAGroups(j);
    SavedAndBurstRecoverCodes(j);
    assert r[16] == r[16..25][0] && r[17] == r[16..25][1];
    ColumnRecovers(r, 25, HiddenTable, j.asset.hidden);
  }

  lemma LayoutABurstEnums(j: JoinedRow)
    ensures RecoverCode(ProjectA(j)[26]) == j.asset.avalanchePickType
    ensures RecoverCode(ProjectA(j)[27]) == AddCode(j, (x: AdditionalAttributes) => x.cloudAvalanchePickType)
    ensures RecoverCode(ProjectA(j)[28]) == j.asset.trashedState
    ensures RecoverCode(ProjectA(j)[31]) == AddCode(j, (x: AdditionalAttributes) => x.shareType)
  {
    var r := ProjectA(j);
    LayoutAGroups(j);
    SavedAndBurstRecoverCodes(j);
    assert r[26] == r[26..34][0] && r[27] == r[26..34][1] && r[28] == r[26..34][2];
    assert r[17] == r[16..25][1];
  }

  lemma LayoutAShareEnums(j: JoinedRow)
    ensures RecoverCode(ProjectA(j)[36]) == ParticipantCode(j, (p: ShareParticipant) => p.isCurrentUser)
    ensures RecoverCode(ProjectA(j)[37]) == ParticipantCode(j, (p: ShareParticipant) => p.role)
    ensures RecoverCode(ProjectA(j)[49]) == ParticipantCode(j, (p: ShareParticipant) => p.z54Share)
    ensures RecoverCode(ProjectA(j)[50]) == ShareInt(j, (s: Share) => s.status)
    ensures RecoverCode(ProjectA(j)[51]) == ShareInt(j, (s: Share) => s.scopeType)
  {
    var r := ProjectA(j);
    LayoutAGroups(j);
    ContributionRecoversCodes(j);
    assert r[36] == r[36..49][0] && r[37] == r[36..49][1];
    ColumnRecovers(r, 49, Z54ShareTable, ParticipantCode(j, (p: ShareParticipant) => p.z54Share));
    ColumnRecovers(r, 50, ShareStatusTable, ShareInt(j, (s: Share) => s.status));
    ColumnRecovers(r, 51, ShareScopeTypeTable, ShareInt(j, (s: Share) => s.scopeType));
  }

  /** Where the column groups sit in layout B. */
  lemma LayoutBGroups(j: JoinedRow)
    ensures ProjectB(j)[..16] == AssetColumns(j)
    ensures ProjectB(j)[17..26] == SavedAndDatedColumns(j)
    ensures ProjectB(j)[30..38] == BurstAndTrashColumns(j)
    ensures ProjectB(j)[40..53] == ContributionColumns(j)
    ensures ProjectB(j)[16] == Label(IsRecentlySavedTable, j.asset.isRecentlySaved)
    ensures ProjectB(j)[26] == Label(IsDetectedScreenshotTable, j.asset.isDetectedScreenshot)
    ensures ProjectB(j)[27] == Label(HiddenTable, j.asset.hidden)
    ensures ProjectB(j)[28] == Label(AdjustmentsStateTable, j.asset.adjustmentsState)
    ensures ProjectB(j)[29] == Label(AvalancheKindTable, j.asset.avalancheKind)
    ensures ProjectB(j)[53] == Label(GenerativeAITypeTable, Field(j.extended, (e: ExtendedAttributes) => e.generativeAIType))
  {
  }

  /** The enumerated columns layout B adds around the shared groups
      determine their codes. */
  lemma LayoutBOwnEnums(j: JoinedRow)
    ensures RecoverCode(ProjectB(j)[16]) == j.asset.isRecentlySaved
    ensures RecoverCode(ProjectB(j)[26]) == j.asset.isDetectedScreenshot
    ensures RecoverCode(ProjectB(j)[27]) == j.asset.hidden
    ensures RecoverCode(ProjectB(j)[28]) == j.asset.adjustmentsState
    ensures RecoverCode(ProjectB(j)[29]) == j.asset.avalancheKind
    ensures RecoverCode(ProjectB(j)[53]) == Field(j.extended, (e: ExtendedAttributes) => e.generativeAIType)
  {
    var r := ProjectB(j);
    LayoutBGroups(j);
    ColumnRecovers(r, 16, IsRecentlySavedTable, j.asset.isRecentlySaved);
    ColumnRecovers(r, 26, IsDetectedScreenshotTable, j.asset.isDetectedScreenshot);
    ColumnRecovers(r, 27, HiddenTable, j.asset.hidden);
    ColumnRecovers(r, 28, AdjustmentsStateTable, j.asset.adjustmentsState);
    ColumnRecovers(r, 29, AvalancheKindTable, j.asset.avalancheKind);
    ColumnRecovers(r, 53, GenerativeAITypeTable, Field(j.extended, (e: ExtendedAttributes) => e.generativeAIType));
  }

  /** Layout B's copies of the asset and contribution groups determine
      their codes too. */
  lemma LayoutBSharedEnums(j: JoinedRow)
    ensures RecoverCode(ProjectB(j)[1]) == j.asset.participationState
    ensures RecoverCode(ProjectB(j)[8]) == j.asset.syndicationState
    ensures RecoverCode(ProjectB(j)[9]) == j.asset.bundleScope
    ensures RecoverCode(ProjectB(j)[10]) == AddCode(j, (x: AdditionalAttributes) => x.importedBy)
    ensures RecoverCode(ProjectB(j)[15]) == j.asset.visibilityState
    ensures RecoverCode(ProjectB(j)[40]) == ParticipantCode(j, (p: ShareParticipant) => p.isCurrentUser)
    ensures RecoverCode(ProjectB(j)[41]) == ParticipantCode(j, (p: ShareParticipant) => p.role)
  {
    var r := ProjectB(j);
    LayoutBGroups(j);
    AssetColumnsRecoverCodes(j);
    ContributionRecoversCodes(j);
    assert r[1] == r[..16][1] && r[8] == r[..16][8] && r[9] == r[..16][9];
    assert r[10] == r[..16][10] && r[15] == r[..16][15];
    assert r[40] == r[40..53][0] && r[41] == r[40..53][1];
  }

  /** Layout B's copies of the saved, burst and trash groups determine their
      codes, the Share Type column at both of its positions included. */
  lemma LayoutBSavedAndBurstEnums(j: JoinedRow)
    ensures RecoverCode(ProjectB(j)[17]) == j.asset.savedAssetType
    ensures RecoverCode(ProjectB(j)[18]) == AddCode(j, (x: AdditionalAttributes) => x.shareType)
    ensures RecoverCode(ProjectB(j)[30]) == j.asset.avalanchePickType
    ensures RecoverCode(ProjectB(j)[31]) == AddCode(j, (x: AdditionalAttributes) => x.cloudAvalanchePickType)
    ensures RecoverCode(ProjectB(j)[32]) == j.asset.trashedState
    ensures RecoverCode(ProjectB(j)[35]) == AddCode(j, (x: AdditionalAttributes) => x.shareType)
  {
    var r := ProjectB(j);
    LayoutBGroups(j);
    SavedAndBurstRecoverCodes(j);
    assert r[17] == r[17..26][0] && r[18] == r[17..26][1];
    assert r[30] == r[30..38][0] && r[31] == r[30..38][1] && r[32] == r[30..38][2];
  }

  /** An asset in the active library scope, hidden, with no contributor and
      no matching share (a NULL or dangling ZLIBRARYSCOPE) still gives exactly
      one row: in both layouts Hidden reads "1-Asset Hidden-1" and every
      participant and share column is NULL. */
  lemma HiddenAssetWithoutShareOrContributor(db: Database, a: Asset)
    requires InActiveLibraryScope(a) && a.hidden == Some(1)
    requires Contributors(db.contributors, a.pk) == []
    requires FindByKey(db.shares, (s: Share) => s.pk, a.libraryScope).None?
    ensures |JoinAsset(db, a)| == 1
    ensures ProjectA(JoinAsset(db, a)[0])[25] == Text("1-Asset Hidden-1")
    ensures forall k :: 36 <= k <= 51 ==> ProjectA(JoinAsset(db, a)[0])[k] == Null
    ensures ProjectB(JoinAsset(db, a)[0])[27] == Text("1-Asset Hidden-1")
    ensures forall k :: 40 <= k <= 52 ==> ProjectB(JoinAsset(db, a)[0])[k] == Null
  {
    var j := JoinAsset(db, a)[0];
    assert j in JoinAsset(db, a);
    assert j.asset == a && j.contributor.None? && j.participant.None? && j.share.None?;
    LayoutAGroups(j);
    LayoutBGroups(j);
    HiddenLabel();
    NoShareNoShareColumns(j);
    NoShareNoShareColumnsB(j);
  }

  lemma HiddenLabel()
    ensures Label(HiddenTable, Some(1)) == Text("1-Asset Hidden-1")
  {
    var t := HiddenTable;
    assert t[0].code == 0 && t[1] == Arm(1, "Asset Hidden-1");
    assert Lookup(t[1..], 1) == Some(ArmLabel(t[1]));
    assert NatToString(1) == "1";
  }

  /** The contribution group of a row without contributor, participant and
      share is all NULL. */
  lemma NoContributionColumns(j: JoinedRow)
    requires j.contributor.None? && j.participant.None? && j.share.None?
    ensures forall k :: 0 <= k < 13 ==> ContributionColumns(j)[k] == Null
  {
  }

  /** A row without contributor, participant and share has NULL in every
      participant and share column of layout A. */
  lemma NoShareNoShareColumns(j: JoinedRow)
    requires j.contributor.None? && j.participant.None? && j.share.None?
    ensures forall k :: 36 <= k <= 51 ==> ProjectA(j)[k] == Null
  {
    LayoutAGroups(j);
    NoContributionColumns(j);
    var r := ProjectA(j);
    assert forall k :: 36 <= k < 49 ==> r[k] == r[36..49][k - 36];
    assert forall k :: 49 <= k < 52 ==> r[k] == r[49..][k - 49];
  }

  /** The same for layout B, whose participant and share columns are 40-52. */
  lemma NoShareNoShareColumnsB(j: JoinedRow)
    requires j.contributor.None? && j.participant.None? && j.share.None?
    ensures forall k :: 40 <= k <= 52 ==> ProjectB(j)[k] == Null
  {
    LayoutBGroups(j);
    NoContributionColumns(j);
    var r := ProjectB(j);
    assert forall k :: 40 <= k < 53 ==> r[k] == r[40..53][k - 40];
  }
}
