/** The header rows the report pairs with the two layouts of the
    shared-library asset query, one name per column. */
module PhotoHeaders {

  /** Layout A (iOS 16-17). The numeric suffixes are part of the names and do
      not always equal the position (position 40 reads "-10"). */
  const HeadersA: seq<string> := [
    "zAsset-Date Created-0",
    "zAsset-Active Library Scope Participation State-1",
    "zAsset-zPK-2",
    "zAsset-Directory-Path-3",
    "zAsset-Filename-4",
    "zAddAssetAttr- Original Filename-5",
    "zCldMast- Original Filename-6",
    "zAddAssetAttr- Syndication Identifier-SWY-Files-7",
    "zAsset-Syndication State-8",
    "zAsset-Bundle Scope-9",
    "zAddAssetAttr-Imported by-10",
    "zExtAttr-Camera Make-11",
    "zExtAttr-Camera Model-12",
    "zAddAssetAttr.Imported by Bundle Identifier-13",
    "zAddAssetAttr-Imported By Display Name-14",
    "zAsset-Visibility State-15",
    "zAsset-Saved Asset Type-16",
    "zAddAssetAttr-Share Type-17",
    "zAsset- SortToken -CameraRoll-18",
    "zAsset-Added Date-19",
    "zCldMast-Creation Date-20",
    "zAddAssetAttr-Time Zone Name-21",
    "zAddAssetAttr-EXIF-String-22",
    "zAsset-Modification Date-23",
    "zAsset-Last Shared Date-24",
    "zAsset-Hidden-25",
    "zAsset-Avalanche_Pick_Type-BurstAsset-26",
    "zAddAssetAttr-Cloud_Avalanche_Pick_Type-BurstAsset-27",
    "zAsset-Trashed State-LocalAssetRecentlyDeleted-28",
    "zAsset-Trashed Date-29",
    "zAsset-Trashed by Participant= zShareParticipant_zPK-30",
    "zAddAssetAttr-Share Type-31",
    "zAddAssetAttr-zPK-32",
    "zAsset-UUID = store.cloudphotodb-33",
    "zAddAssetAttr-Master Fingerprint-34",
    "zAddAssetAttr.Adjusted Fingerprint-35",
    "SPLzSharePartic-Is Current User-36",
    "SPLzSharePartic-Role-37",
    "zAsstContrib-Participant= zSharePartic-zPK-38",
    "SPLzSharePartic-Email Address-39",
    "SPLzSharePartic-Phone Number-10",
    "SPLzShare-Title-SPL-41",
    "SPLzShare-Share URL-SPL-42",
    "SPLzShare-Scope ID-SPL-43",
    "SPLzShare-Creation Date-SPL-44",
    "SPLzShare-Expiry Date-SPL-45",
    "SPLzShare-Cloud Photo Count-SPL-46",
    "SPLzShare-Assets AddedByCamera SmartSharing-47",
    "SPLzShare-Cloud Video Count-SPL-48",
    "SPLzSharePartic-z54SHARE-49",
    "SPLzShare-Status-50",
    "SPLzShare-Scope Type-51" ]

  /** Layout B (iOS 18 on). */
  const HeadersB: seq<string> := [
    "zAsset-Date Created-0",
    "zAsset-Active Library Scope Participation State-1",
    "zAsset-zPK-2",
    "zAsset-Directory-Path-3",
    "zAsset-Filename-4",
    "zAddAssetAttr- Original Filename-5",
    "zCldMast- Original Filename-6",
    "zAddAssetAttr- Syndication Identifier-SWY-Files-7",
    "zAsset-Syndication State-8",
    "zAsset-Bundle Scope-9",
    "zAddAssetAttr-Imported by-10",
    "zExtAttr-Camera Make-11",
    "zExtAttr-Camera Model-12",
    "zAddAssetAttr- Imported by Bundle Identifier-13",
    "zAddAssetAttr- Imported By Display Name-14",
    "zAsset-Visibility State-15",
    "zAsset-Is_Recently_Saved-iOS18-16",
    "zAsset-Saved Asset Type-17",
    "zAddAssetAttr-Share Type-18",
    "zAsset- SortToken -CameraRoll-19",
    "zAsset-Added Date-20",
    "zCldMast-Creation Date-21",
    "zAddAssetAttr-Time Zone Name-22",
    "zAddAssetAttr-EXIF-String-23",
    "zAsset-Modification Date-24",
    "zAsset-Last Shared Date-25",
    "zAsset-Is_Detected_Screenshot-iOS18-26",
    "zAsset-Hidden-27",
    "zAsset-Adjustments_State-Camera-Effects-Filters-iOS18-28",
    "zAsset-Avalanche_Kind-iOS18-29",
    "zAsset-Avalanche_Pick_Type-BurstAsset-30",
    "zAddAssetAttr-Cloud_Avalanche_Pick_Type-BurstAsset-31",
    "zAsset-Trashed State-LocalAssetRecentlyDeleted-32",
    "zAsset-Trashed Date-33",
    "zAsset-Trashed by Participant= zShareParticipant_zPK-34",
    "zAddAssetAttr-Share Type-35",
    "zAddAssetAttr-zPK-36",
    "zAsset-UUID = store.cloudphotodb-37",
    "zAddAssetAttr-Original Stable Hash-iOS18-38",
    "zAddAssetAttr.Adjusted Stable Hash-iOS18-39",
    "SPLzSharePartic-Is Current User-40",
    "SPLzSharePartic-Role-41",
    "zAsstContrib-Participant= zSharePartic-zPK-42",
    "SPLzSharePartic-Email Address-43",
    "SPLzSharePartic-Phone Number-44",
    "SPLzShare-Title-SPL-45",
    "SPLzShare-Share URL-SPL-46",
    "SPLzShare-Scope ID-SPL-47",
    "SPLzShare-Creation Date-SPL-48",
    "SPLzShare-Expiry Date-SPL-49",
    "SPLzShare-Cloud Photo Count-SPL-50",
    "SPLzShare-Assets AddedByCamera SmartSharing-51",
    "SPLzShare-Cloud Video Count-SPL-52",
    "zExtAttr-Generative_AI_Type-iOS18-53",
    "zExtAttr-Credit-iOS18-54" ]

  lemma HeaderArities()
    ensures |HeadersA| == 52 && |HeadersB| == 55
  {
  }
}
