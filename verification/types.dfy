/**
 * The records the admin front end exchanges with its own routes: OSS masters,
 * OSS versions with their review status, the uniform response envelope and the
 * bulk counters. `Partial<T>` updates are patches with one optional slot per field.
 */
module Types {
  import opened JsCore

  /** The two-valued review status. */
  datatype ReviewStatus = Y | N {
    /** The wire spelling, `'Y'` or `'N'`. */
    function Code(): string {
      match this
      case Y => "Y"
      case N => "N"
    }

    /** The label a status badge shows. */
    function Label(): string {
      match this
      case Y => "리뷰 완료"
      case N => "미리뷰"
    }
  }

  /** Reads `'Y'` or `'N'`; every other string is not a review status. */
  function ParseStatus(s: string): (r: Option<ReviewStatus>)
    ensures r.Some? ==> r.value.Code() == s
    ensures s == "Y" || s == "N" ==> r.Some?
  {
    if s == "Y" then Some(Y) else if s == "N" then Some(N) else None
  }

  /** Parsing a status code gives the status back, and nothing else parses. */
  lemma StatusCodeRoundTrip(st: ReviewStatus, s: string)
    ensures ParseStatus(st.Code()) == Some(st)
    ensures ParseStatus(s) == Some(st) <==> s == st.Code()
  {
  }

  /** The badge labels of the two statuses, and they differ. */
  lemma StatusLabels()
    ensures Y.Label() == "리뷰 완료" && N.Label() == "미리뷰"
    ensures Y.Label() != N.Label()
  {
  }

  /** A list filter: either a status or `''` for "all". */
  datatype ReviewFilter = AllStatuses | Only(status: ReviewStatus) {
    /** The filter as its string value. */
    function Code(): string {
      match this
      case AllStatuses => ""
      case Only(s) => s.Code()
    }
  }

  /** How several declared licenses combine. */
  datatype Combination = And | Or {
    function Code(): string {
      match this
      case And => "AND"
      case Or => "OR"
    }
  }

  /** A package-level record. */
  datatype OssMaster = OssMaster(
    ossMasterId: int,
    ossName: string,
    ossNickname: string,
    homepage: string,
    description: string,
    descriptionKo: string,
    publisher: string,
    downloadLocation: string,
    downloadLocationList: seq<string>,
    nicknameList: seq<string>,
    attribution: string,
    complianceNotice: string,
    complianceNoticeKo: string,
    versionLicenseDiff: string,
    reviewed: ReviewStatus,
    ignoreFlag: string,
    createdDate: string,
    modifiedDate: string)

  /** A release of an OSS master; the license lists are ordered and may be null. */
  datatype OssVersion = OssVersion(
    ossVersionId: int,
    ossMasterId: int,
    version: string,
    description: string,
    descriptionKo: string,
    attribution: string,
    copyright: string,
    declaredLicenseList: Option<seq<string>>,
    detectedLicenseList: Option<seq<string>>,
    restrictionList: Option<seq<string>>,
    licenseCombination: Combination,
    releaseDate: string,
    reviewed: ReviewStatus,
    createdDate: string,
    modifiedDate: string)

  /** `Partial<OssVersion>`: a field is replaced exactly when its slot is filled. */
  datatype VersionPatch = VersionPatch(
    ossVersionId: Option<int>,
    ossMasterId: Option<int>,
    version: Option<string>,
    description: Option<string>,
    descriptionKo: Option<string>,
    attribution: Option<string>,
    copyright: Option<string>,
    declaredLicenseList: Option<Option<seq<string>>>,
    detectedLicenseList: Option<Option<seq<string>>>,
    restrictionList: Option<Option<seq<string>>>,
    licenseCombination: Option<Combination>,
    releaseDate: Option<string>,
    reviewed: Option<ReviewStatus>,
    createdDate: Option<string>,
    modifiedDate: Option<string>)

  /** The empty patch `{}`. */
  const NoVersionChange := VersionPatch(None, None, None, None, None, None, None, None,
                                        None, None, None, None, None, None, None)

  /** The patch `{ reviewed }`. */
  function ReviewedPatch(reviewed: ReviewStatus): VersionPatch {
    NoVersionChange.(reviewed := Some(reviewed))
  }

  /** `{ ...v, ...p }` for a version. */
  function MergeVersion(v: OssVersion, p: VersionPatch): OssVersion {
    OssVersion(
      p.ossVersionId.GetOr(v.ossVersionId),
      p.ossMasterId.GetOr(v.ossMasterId),
      p.version.GetOr(v.version),
      p.description.GetOr(v.description),
      p.descriptionKo.GetOr(v.descriptionKo),
      p.attribution.GetOr(v.attribution),
      p.copyright.GetOr(v.copyright),
      p.declaredLicenseList.GetOr(v.declaredLicenseList),
      p.detectedLicenseList.GetOr(v.detectedLicenseList),
      p.restrictionList.GetOr(v.restrictionList),
      p.licenseCombination.GetOr(v.licenseCombination),
      p.releaseDate.GetOr(v.releaseDate),
      p.reviewed.GetOr(v.reviewed),
      p.createdDate.GetOr(v.createdDate),
      p.modifiedDate.GetOr(v.modifiedDate))
  }

  /** The patch that fills every slot with the fields of `w`. */
  function FullVersionPatch(w: OssVersion): VersionPatch {
    VersionPatch(
      Some(w.ossVersionId), Some(w.ossMasterId), Some(w.version), Some(w.description),
      Some(w.descriptionKo), Some(w.attribution), Some(w.copyright),
      Some(w.declaredLicenseList), Some(w.detectedLicenseList), Some(w.restrictionList),
      Some(w.licenseCombination), Some(w.releaseDate), Some(w.reviewed),
      Some(w.createdDate), Some(w.modifiedDate))
  }

  /**
   * Merging changes exactly the filled slots: the empty patch is the identity,
   * merging the same patch twice is merging it once, and a full patch replaces
   * the record.
   */
  lemma MergeVersionLaws(v: OssVersion, p: VersionPatch, w: OssVersion)
    ensures MergeVersion(v, NoVersionChange) == v
    ensures MergeVersion(MergeVersion(v, p), p) == MergeVersion(v, p)
    ensures MergeVersion(v, FullVersionPatch(w)) == w
  {
  }

  /** `{ ...v, reviewed }` changes the review status and nothing else. */
  lemma ReviewedPatchOnlyStatus(v: OssVersion, reviewed: ReviewStatus)
    ensures MergeVersion(v, ReviewedPatch(reviewed)) == v.(reviewed := reviewed)
  {
  }

  /** `Partial<OssMaster>`. */
  datatype MasterPatch = MasterPatch(
    ossMasterId: Option<int>,
    ossName: Option<string>,
    ossNickname: Option<string>,
    homepage: Option<string>,
    description: Option<string>,
    descriptionKo: Option<string>,
    publisher: Option<string>,
    downloadLocation: Option<string>,
    downloadLocationList: Option<seq<string>>,
    nicknameList: Option<seq<string>>,
    attribution: Option<string>,
    complianceNotice: Option<string>,
    complianceNoticeKo: Option<string>,
    versionLicenseDiff: Option<string>,
    reviewed: Option<ReviewStatus>,
    ignoreFlag: Option<string>,
    createdDate: Option<string>,
    modifiedDate: Option<string>)

  const NoMasterChange := MasterPatch(None, None, None, None, None, None, None, None, None,
                                      None, None, None, None, None, None, None, None, None)

  /** `{ ...m, ...p }` for a master. */
  function MergeMaster(m: OssMaster, p: MasterPatch): OssMaster {
    OssMaster(
      p.ossMasterId.GetOr(m.ossMasterId),
      p.ossName.GetOr(m.ossName),
      p.ossNickname.GetOr(m.ossNickname),
      p.homepage.GetOr(m.homepage),
      p.description.GetOr(m.description),
      p.descriptionKo.GetOr(m.descriptionKo),
      p.publisher.GetOr(m.publisher),
      p.downloadLocation.GetOr(m.downloadLocation),
      p.downloadLocationList.GetOr(m.downloadLocationList),
      p.nicknameList.GetOr(m.nicknameList),
      p.attribution.GetOr(m.attribution),
      p.complianceNotice.GetOr(m.complianceNotice),
      p.complianceNoticeKo.GetOr(m.complianceNoticeKo),
      p.versionLicenseDiff.GetOr(m.versionLicenseDiff),
      p.reviewed.GetOr(m.reviewed),
      p.ignoreFlag.GetOr(m.ignoreFlag),
      p.createdDate.GetOr(m.createdDate),
      p.modifiedDate.GetOr(m.modifiedDate))
  }

  lemma MergeMasterLaws(m: OssMaster, p: MasterPatch)
    ensures MergeMaster(m, NoMasterChange) == m
    ensures MergeMaster(MergeMaster(m, p), p) == MergeMaster(m, p)
    ensures MergeMaster(m, NoMasterChange.(reviewed := Some(Y))) == m.(reviewed := Y)
  {
  }

  /** The upstream service's reply shape. */
  datatype ExternalResponse = ExternalResponse(code: string, messageList: map<string, Json>, success: bool)

  /** Paging metadata of a list reply, as the client reads it. */
  datatype PageMeta = PageMeta(totalCount: int, currentPage: int, pageSize: int)

  /** The uniform envelope `{ success, data?, error?, meta? }` of every local route. */
  datatype ApiResponse<T> = ApiResponse(success: bool, data: Option<T>, error: Option<string>, meta: Option<PageMeta>)

  /** A bulk review request. */
  datatype BulkReviewRequest = BulkReviewRequest(versionIds: seq<int>, reviewed: ReviewStatus)

  /** The counters a bulk route reports. */
  datatype BulkResult = BulkResult(total: nat, succeeded: nat, failed: nat)

  /** Display-only user information decoded from the token's payload, field values as found. */
  datatype UserInfo = UserInfo(userId: Json, companyName: Json, key: Json)
}
