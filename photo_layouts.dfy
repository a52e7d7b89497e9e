/** The two SELECT lists of the shared-library asset query as projections of
    a joined row, and the header rows the report pairs with them. Layout A is
    the iOS 16-17 query (52 columns), layout B the iOS 18 query (55 columns);
    both compose the same code tables. */
module PhotoLayouts {

  import opened Common
  import opened PhotoTables
  import opened PhotoQuery

  // Columns of the left-joined records; NULL when the record is absent.
  function AddText(j: JoinedRow, f: AdditionalAttributes -> Option<string>): Value
  {
    TextCell(Field(j.additional, f))
  }

  function AddCode(j: JoinedRow, f: AdditionalAttributes -> Option<int>): Option<int>
  {
    Field(j.additional, f)
  }

  function ExtText(j: JoinedRow, f: ExtendedAttributes -> Option<string>): Value
  {
    TextCell(Field(j.extended, f))
  }

  function ShareInt(j: JoinedRow, f: Share -> Option<int>): Option<int>
  {
    Field(j.share, f)
  }

  function ShareText(j: JoinedRow, f: Share -> Option<string>): Value
  {
    TextCell(Field(j.share, f))
  }

  function ParticipantCode(j: JoinedRow, f: ShareParticipant -> Option<int>): Option<int>
  {
    Field(j.participant, f)
  }

  function ParticipantText(j: JoinedRow, f: ShareParticipant -> Option<string>): Value
  {
    TextCell(Field(j.participant, f))
  }

  /** The Share Type column, selected twice by both queries. */
  function ShareTypeCell(j: JoinedRow): Value
  {
    Label(ShareTypeTable, AddCode(j, (x: AdditionalAttributes) => x.shareType))
  }

  // The column groups both SELECT lists share, in query order.

  /** Creation date through visibility state (columns 0-15 in both layouts). */
  function AssetColumns(j: JoinedRow): (r: seq<Value>)
    ensures |r| == 16 && r[0] == DateCell(DateKey(j))
  {
    var a := j.asset;
    [ DateCell(a.dateCreated) ] +
    [ Label(ParticipationStateTable, a.participationState),
      Int(a.pk),
      TextCell(a.directory),
      TextCell(a.filename),
      AddText(j, (x: AdditionalAttributes) => x.originalFilename),
      TextCell(Field(j.master, (m: CloudMaster) => m.originalFilename)),
      AddText(j, (x: AdditionalAttributes) => x.syndicationIdentifier),
      Label(SyndicationStateTable, a.syndicationState),
      Label(BundleScopeTable, a.bundleScope),
      Label(ImportedByTable, AddCode(j, (x: AdditionalAttributes) => x.importedBy)),
      ExtText(j, (e: ExtendedAttributes) => e.cameraMake),
      ExtText(j, (e: ExtendedAttributes) => e.cameraModel),
      AddText(j, (x: AdditionalAttributes) => x.importedByBundleIdentifier),
      AddText(j, (x: AdditionalAttributes) => x.importedByDisplayName),
      Label(VisibilityStateTable, a.visibilityState) ]
  }

  /** Saved asset type through last shared date. */
  function SavedAndDatedColumns(j: JoinedRow): (r: seq<Value>)
    ensures |r| == 9 && r[1] == ShareTypeCell(j)
  {
    var a := j.asset;
    [ Label(SavedAssetTypeTable, a.savedAssetType),
      ShareTypeCell(j),
      DateCell(a.sortToken),
      DateCell(a.addedDate),
      DateCell(Field(j.master, (m: CloudMaster) => m.creationDate)),
      AddText(j, (x: AdditionalAttributes) => x.timeZoneName),
      AddText(j, (x: AdditionalAttributes) => x.exifTimestampString),
      DateCell(a.modificationDate),
      DateCell(a.lastSharedDate) ]
  }

  /** Burst pick types through the asset UUID. */
  function BurstAndTrashColumns(j: JoinedRow): (r: seq<Value>)
    ensures |r| == 8 && r[5] == ShareTypeCell(j)
  {
    var a := j.asset;
    [ Label(AvalanchePickTypeTable, a.avalanchePickType),
      Label(AvalanchePickTypeTable, AddCode(j, (x: AdditionalAttributes) => x.cloudAvalanchePickType)),
      Label(TrashedStateTable, a.trashedState),
      DateCell(a.trashedDate),
      IntCell(a.trashedByParticipant),
      ShareTypeCell(j),
      IntCell(Field(j.additional, (x: AdditionalAttributes) => Some(x.pk))),
      TextCell(a.uuid) ]
  }

  /** The participant and share columns of the contributor join. */
  function ContributionColumns(j: JoinedRow): (r: seq<Value>)
    ensures |r| == 13
  {
    [ Label(IsCurrentUserTable, ParticipantCode(j, (p: ShareParticipant) => p.isCurrentUser)),
      Label(ParticipantRoleTable, ParticipantCode(j, (p: ShareParticipant) => p.role)),
      IntCell(Field(j.contributor, (c: AssetContributor) => c.participant)),
      ParticipantText(j, (p: ShareParticipant) => p.emailAddress),
      ParticipantText(j, (p: ShareParticipant) => p.phoneNumber),
      ShareText(j, (s: Share) => s.title),
      ShareText(j, (s: Share) => s.shareURL),
      ShareText(j, (s: Share) => s.scopeIdentifier),
      DateCell(ShareInt(j, (s: Share) => s.creationDate)),
      DateCell(ShareInt(j, (s: Share) => s.expiryDate)),
      IntCell(ShareInt(j, (s: Share) => s.cloudPhotoCount)),
      IntCell(ShareInt(j, (s: Share) => s.assetsAddedByCameraSmartSharing)),
      IntCell(ShareInt(j, (s: Share) => s.cloudVideoCount)) ]
  }

  /** The iOS 16-17 SELECT list. */
  function ProjectA(j: JoinedRow): (r: seq<Value>)
    ensures |r| == 52
    ensures r[0] == DateCell(DateKey(j))
    ensures r[17] == r[31] == ShareTypeCell(j)
  {
    AssetColumns(j)                                                                     // 0-15
    + SavedAndDatedColumns(j)                                                           // 16-24
    + [ Label(HiddenTable, j.asset.hidden) ]                                            // 25
    + BurstAndTrashColumns(j)                                                           // 26-33
    + [ AddText(j, (x: AdditionalAttributes) => x.masterFingerprint),                   // 34
        AddText(j, (x: AdditionalAttributes) => x.adjustedFingerprint) ]                // 35
    + ContributionColumns(j)                                                            // 36-48
    + [ Label(Z54ShareTable, ParticipantCode(j, (p: ShareParticipant) => p.z54Share)),  // 49
        Label(ShareStatusTable, ShareInt(j, (s: Share) => s.status)),                   // 50
        Label(ShareScopeTypeTable, ShareInt(j, (s: Share) => s.scopeType)) ]            // 51
  }

  /** The iOS 18 SELECT list. */
  function ProjectB(j: JoinedRow): (r: seq<Value>)
    ensures |r| == 55
    ensures r[0] == DateCell(DateKey(j))
    ensures r[18] == r[35] == ShareTypeCell(j)
  {
    var a := j.asset;
    AssetColumns(j)                                                                     // 0-15
    + [ Label(IsRecentlySavedTable, a.isRecentlySaved) ]                                // 16
    + SavedAndDatedColumns(j)                                                           // 17-25
    + [ Label(IsDetectedScreenshotTable, a.isDetectedScreenshot),                       // 26
        Label(HiddenTable, a.hidden),                                                   // 27
        Label(AdjustmentsStateTable, a.adjustmentsState),                               // 28
        Label(AvalancheKindTable, a.avalancheKind) ]                                    // 29
    + BurstAndTrashColumns(j)                                                           // 30-37
    + [ AddText(j, (x: AdditionalAttributes) => x.originalStableHash),                  // 38
        AddText(j, (x: AdditionalAttributes) => x.adjustedStableHash) ]                 // 39
    + ContributionColumns(j)                                                            // 40-52
    + [ Label(GenerativeAITypeTable, Field(j.extended, (e: ExtendedAttributes) => e.generativeAIType)), // 53
        ExtText(j, (e: ExtendedAttributes) => e.credit) ]                               // 54
  }
}
