/** The code-to-label tables of the shared-library asset query. Each SQL
    `CASE col WHEN k THEN 'label' ... ELSE 'Unknown-New-Value!: ' || col END`
    is one table here, written once and used by both layouts. */
module PhotoTables {

  import opened Common

  /** One WHEN arm. Every listed label of the query begins with its own code
      and a dash ("1-Asset Hidden-1"), so an arm stores the code and the text
      after that dash. */
  datatype Arm = Arm(code: nat, text: string)

  /** The label an arm yields, exactly as it is written in the query. */
  function ArmLabel(a: Arm): string
  {
    NatToString(a.code) + "-" + a.text
  }

  /** The WHEN arms of one CASE block, in order. */
  type CodeTable = seq<Arm>

  /** The label of the first arm listing code c, if any. */
  function Lookup(t: CodeTable, c: int): (r: Option<string>)
    ensures r.None? <==> forall i :: 0 <= i < |t| ==> t[i].code != c
    ensures r.Some? ==> exists i :: FirstArm(t, c, i) && r.value == ArmLabel(t[i])
  {
    if t == [] then None
    else if t[0].code == c then Some(ArmLabel(t[0]))
    else
      var r := Lookup(t[1..], c);
      if r.Some? then
        var i :| FirstArm(t[1..], c, i) && r.value == ArmLabel(t[1..][i]);
        assert FirstArm(t, c, i + 1);
        r
      else r
  }

  /** Arm i is the first WHEN arm listing code c: the one the CASE takes. */
  predicate FirstArm(t: CodeTable, c: int, i: int)
  {
    0 <= i < |t| && t[i].code == c && forall k :: 0 <= k < i ==> t[k].code != c
  }

  /** The ELSE arm's text, followed by the raw code. */
  const UnknownPrefix: string := "Unknown-New-Value!: "

  /** The CASE expression: NULL stays NULL (`||` with NULL is NULL, and no
      WHEN arm matches NULL), a listed code gives its label, any other code
      gives the unknown prefix followed by the code in decimal. */
  function Label(t: CodeTable, code: Option<int>): Value
  {
    match code
    case None => Null
    case Some(c) =>
      var listed := Lookup(t, c);
      if listed.Some? then Text(listed.value) else Text(UnknownPrefix + IntToString(c))
  }

  /** The three outcomes of the CASE expression: NULL exactly for a NULL
      code, the label of an arm listing a listed code, and the sentinel
      followed by the decimal code for a code no arm lists. */
  lemma LabelCases(t: CodeTable, code: Option<int>)
    ensures Label(t, code).Null? <==> code.None?
    ensures code.Some? && (exists i :: 0 <= i < |t| && t[i].code == code.value) ==>
      exists i :: FirstArm(t, code.value, i) && Label(t, code) == Text(ArmLabel(t[i]))
    ensures code.Some? && (forall i :: 0 <= i < |t| ==> t[i].code != code.value) ==>
      Label(t, code) == Text(UnknownPrefix + IntToString(code.value))
  {
  }

  /** The longest prefix of s made of decimal digits. */
  function LeadingDigits(s: string): (d: string)
    ensures d <= s && AllDigits(d)
  {
    if s != [] && IsDigit(s[0]) then [s[0]] + LeadingDigits(s[1..]) else []
  }

  /** Reads the raw code back from a cell produced by Label: the digits after
      the unknown prefix, or the leading digits of a listed label. */
  function RecoverCode(v: Value): Option<int>
  {
    match v
    case Text(s) =>
      if UnknownPrefix <= s then ParseInt(s[|UnknownPrefix|..])
      else ParseInt(LeadingDigits(s))
    case _ => None
  }

  lemma {:induction false} LeadingDigitsStopAtDash(d: string, rest: string)
    requires AllDigits(d)
    ensures LeadingDigits(d + "-" + rest) == d
  {
    if d != [] {
      assert (d + "-" + rest)[1..] == d[1..] + "-" + rest;
      LeadingDigitsStopAtDash(d[1..], rest);
    }
  }

  /** Forensic fidelity: whatever the code, the cell the CASE expression
      yields determines the code. Listed labels and the unknown sentinel
      never collide, and the sentinel carries the raw value. */
  lemma LabelRecoversCode(t: CodeTable, code: Option<int>)
    ensures RecoverCode(Label(t, code)) == code
  {
    match code
    case None =>
    case Some(c) =>
      if Lookup(t, c).Some? {
        var s := Lookup(t, c).value;
        var i :| FirstArm(t, c, i) && s == ArmLabel(t[i]);
        var d := NatToString(c);
        assert s == d + "-" + t[i].text;
        assert s[0] == d[0];
        assert !(UnknownPrefix <= s);
        LeadingDigitsStopAtDash(d, t[i].text);
        IntToStringRoundTrip(c);
      } else {
        var s := UnknownPrefix + IntToString(c);
        assert s[|UnknownPrefix|..] == IntToString(c);
        IntToStringRoundTrip(c);
      }
  }

  /** A code no arm lists is surfaced, never dropped: the label is the
      sentinel prefix followed by the code in decimal. */
  lemma UnlistedCodeIsSentinel(t: CodeTable, c: int)
    requires forall i :: 0 <= i < |t| ==> t[i].code != c
    ensures Label(t, Some(c)).Text?
    ensures UnknownPrefix <= Label(t, Some(c)).s
    ensures ParseInt(Label(t, Some(c)).s[|UnknownPrefix|..]) == Some(c)
  {
    var s := UnknownPrefix + IntToString(c);
    assert s[|UnknownPrefix|..] == IntToString(c);
    IntToStringRoundTrip(c);
  }

  // ---------------------------------------------------------------------
  // The tables, in the order their columns first appear in the query.

  const ParticipationStateTable: CodeTable := [
    Arm(0, "Asset-Not-In-Active-SPL-0"),
    Arm(1, "Asset-In-Active-SPL-1")]

  const SyndicationStateTable: CodeTable := [
    Arm(0, "PhDaPs-NA_or_SyndPs-Received-SWY_Synd_Asset-0"),
    Arm(1, "SyndPs-Sent-SWY_Synd_Asset-1"),
    Arm(2, "SyndPs-Manually-Saved_SWY_Synd_Asset-2"),
    Arm(3, "SyndPs-STILLTESTING_Sent-SWY-3"),
    Arm(8, "SyndPs-Linked_Asset_was_Visible_On-Device_User_Deleted_Link-8"),
    Arm(9, "SyndPs-STILLTESTING_Sent_SWY-9"),
    Arm(10, "SyndPs-Manually-Saved_SWY_Synd_Asset_User_Deleted_From_LPL-10")]

  const BundleScopeTable: CodeTable := [
    Arm(0, "iCldPhtos-ON-AssetNotInSharedAlbum_or_iCldPhtos-OFF-AssetOnLocalDevice-0"),
    Arm(1, "SharediCldLink_CldMastMomentAsset-1"),
    Arm(2, "iCldPhtos-ON-AssetInCloudSharedAlbum-2"),
    Arm(3, "iCldPhtos-ON-AssetIsInSWYConversation-3")]

  const ImportedByTable: CodeTable := [
    Arm(0, "Cloud-Other-0"),
    Arm(1, "Native-Back-Camera-1"),
    Arm(2, "Native-Front-Camera-2"),
    Arm(3, "Third-Party-App-3"),
    Arm(4, "StillTesting-4"),
    Arm(5, "PhotoBooth_PL-Asset-5"),
    Arm(6, "Third-Party-App-6"),
    Arm(7, "iCloud_Share_Link-CMMAsset-7"),
    Arm(8, "System-Package-App-8"),
    Arm(9, "Native-App-9"),
    Arm(10, "StillTesting-10"),
    Arm(11, "StillTesting-11"),
    Arm(12, "SWY_Syndication_PL-12")]

  const VisibilityStateTable: CodeTable := [
    Arm(0, "Visible-PL-CameraRoll-0"),
    Arm(2, "Not-Visible-PL-CameraRoll-2")]

  const IsRecentlySavedTable: CodeTable := [
    Arm(0, "Not_Recently_Saved iOS18_Still_Testing-0"),
    Arm(1, "Recently_Saved iOS18_Still_Testing-1")]

  const SavedAssetTypeTable: CodeTable := [
    Arm(0, "Saved-via-other-source-0"),
    Arm(1, "StillTesting-1"),
    Arm(2, "StillTesting-2"),
    Arm(3, "PhDaPs-Asset_or_SyndPs-Asset_NoAuto-Display-3"),
    Arm(4, "Photo-Cloud-Sharing-Data-Asset-4"),
    Arm(5, "PhotoBooth_Photo-Library-Asset-5"),
    Arm(6, "Cloud-Photo-Library-Asset-6"),
    Arm(7, "StillTesting-7"),
    Arm(8, "iCloudLink_CloudMasterMomentAsset-8"),
    Arm(12, "SyndPs-SWY-Asset_Auto-Display_In_CameraRoll-12")]

  const ShareTypeTable: CodeTable := [
    Arm(0, "Not_Shared-or-Shared_via_Phy_Device_StillTesting-0"),
    Arm(1, "Shared_via_iCldPhotos_Web-or-Other_Device_StillTesting-1")]

  const IsDetectedScreenshotTable: CodeTable := [
    Arm(0, "Not_Detected_Screenshot iOS18_Still_Testing-0"),
    Arm(1, "Detected_Screenshot iOS18_Still_Testing-1")]

  const HiddenTable: CodeTable := [
    Arm(0, "Asset Not Hidden-0"),
    Arm(1, "Asset Hidden-1")]

  const AdjustmentsStateTable: CodeTable := [
    Arm(0, "No-Adjustments-0"),
    Arm(2, "Yes-Adjustments iOS18_needs_update_Decoding-2"),
    Arm(3, "Yes-Adjustments iOS18_needs_update_Decoding-3")]

  const AvalancheKindTable: CodeTable := [
    Arm(0, "No_Avalanche iOS18_Still_Testing-0"),
    Arm(1, "Is_Avalanche iOS18_Still_Testing-1")]

  /** Shared by the asset's and the additional attributes' burst pick type. */
  const AvalanchePickTypeTable: CodeTable := [
    Arm(0, "NA-Single_Asset_Burst_UUID-0_RT"),
    Arm(2, "Burst_Asset_Not_Selected-2_RT"),
    Arm(4, "Burst_Asset_PhotosApp_Picked_KeyImage-4_RT"),
    Arm(8, "Burst_Asset_Selected_for_LPL-8_RT"),
    Arm(16, "Top_Burst_Asset_inStack_KeyImage-16_RT"),
    Arm(32, "StillTesting-32_RT"),
    Arm(52, "Burst_Asset_Visible_LPL-52")]

  const TrashedStateTable: CodeTable := [
    Arm(0, "Asset Not In Trash-Recently Deleted-0"),
    Arm(1, "Asset In Trash-Recently Deleted-1")]

  const IsCurrentUserTable: CodeTable := [
    Arm(0, "Participant-Not_This_User-0"),
    Arm(1, "Participant-Is_This_User-1")]

  const ParticipantRoleTable: CodeTable := [
    Arm(1, "Participant-is-Owner-Role-1"),
    Arm(2, "Participant-is-Invitee-Role-2")]

  const Z54ShareTable: CodeTable := [
    Arm(55, "SPL-Entity-55"),
    Arm(56, "CMM-iCloud-Link-Entity-56"),
    Arm(63, "SPL-Active-Participant-iOS18-63"),
    Arm(64, "CMM-iCloud-Link-iOS18-64")]

  const ShareStatusTable: CodeTable := [
    Arm(1, "Active_Share-CMM_or_SPL-1"),
    Arm(3, "SPL-Actively-Sharing-3")]

  const ShareScopeTypeTable: CodeTable := [
    Arm(2, "iCloudLink-CMMoment-2"),
    Arm(4, "iCld-Shared-Photo-Library-SPL-4"),
    Arm(5, "SPL-Active-Participant-5")]

  const GenerativeAITypeTable: CodeTable := [
    Arm(0, "Not_Generative_AI iOS18_Still_Testing-0")]

}
