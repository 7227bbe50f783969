/**
 * The daily check-in/out page: the attendance gate derived from today's
 * records, the tab and button enables, the selfie capture result and the
 * submission rules. React state is a class whose fields are the page's state
 * hooks; each handler is a method. Times are milliseconds since the Unix epoch.
 */
module CheckinPage {
  import opened Wrappers
  import CheckinRoutes
  import ObjectIds

  /** One of today's records as the page reads it: its `type` and `createdAt`. */
  datatype TodayRecord = TodayRecord(kind: string, createdAt: int)

  const CheckinKind := "checkin"
  const CheckoutKind := "checkout"
  const UnlockDelayMs: int := 8 * 60 * 60 * 1000

  /** `records.some(c => c.type === kind)`. */
  predicate HasKind(records: seq<TodayRecord>, kind: string) {
    exists i :: 0 <= i < |records| && records[i].kind == kind
  }

  /** `records.find(c => c.type === kind)`: the position of the first record of that kind. */
  function FindKind(records: seq<TodayRecord>, kind: string): (r: Option<nat>)
    ensures r.None? <==> !HasKind(records, kind)
    ensures r.Some? ==> r.value < |records| && records[r.value].kind == kind &&
                        forall j :: 0 <= j < r.value ==> records[j].kind != kind
  {
    if records == [] then None
    else if records[0].kind == kind then Some(0)
    else
      var rest := FindKind(records[1..], kind);
      assert forall j :: 1 <= j < |records| ==> records[j] == records[1..][j - 1];
      if rest.Some? then Some(rest.value + 1) else None
  }

  /** The end of the check-in lock: the first check-in's time plus eight hours. */
  function UnlockTime(records: seq<TodayRecord>): (r: Option<int>)
    ensures r.Some? <==> HasKind(records, CheckinKind)
  {
    match FindKind(records, CheckinKind)
    case None => None
    case Some(i) => Some(records[i].createdAt + UnlockDelayMs)
  }

  /** `checkoutEnabled` as the fetch sets it: the clock at fetch time has reached the unlock time. */
  predicate CheckoutEnabledAt(records: seq<TodayRecord>, now: int) {
    UnlockTime(records).Some? && now >= UnlockTime(records).value
  }

  /** The tab a successful fetch selects. */
  function TabAfterFetch(records: seq<TodayRecord>): string {
    if HasKind(records, CheckinKind) then CheckoutKind else CheckinKind
  }

  /** `isCheckinDisabled`, evaluated against the clock at render time. */
  predicate CheckinTabDisabled(until: Option<int>, now: int, hasCheckedIn: bool) {
    (until.Some? && now < until.value) || hasCheckedIn
  }

  /** `isCheckoutTabEnabled`. */
  predicate CheckoutTabEnabled(checkoutEnabled: bool, hasCheckedIn: bool, hasCheckedOut: bool) {
    checkoutEnabled && hasCheckedIn && !hasCheckedOut
  }

  predicate CheckinButtonDisabled(isSubmitting: bool, hasCheckedIn: bool) {
    isSubmitting || hasCheckedIn
  }

  predicate CheckoutButtonDisabled(isSubmitting: bool, hasCheckedIn: bool, hasCheckedOut: bool) {
    isSubmitting || !hasCheckedIn || hasCheckedOut
  }

  /**
   * The unlock time comes from the first check-in in list order: with a later
   * check-in listed before an earlier one, it is eight hours after the later.
   */
  lemma UnlockUsesFirstListedNotEarliest()
    ensures var records := [TodayRecord(CheckinKind, 2000), TodayRecord(CheckinKind, 1000)];
      UnlockTime(records) == Some(2000 + UnlockDelayMs)
  {
    var records := [TodayRecord(CheckinKind, 2000), TodayRecord(CheckinKind, 1000)];
    assert FindKind(records, CheckinKind) == Some(0);
  }

  /** The unlock time is eight hours after some check-in, and no check-in listed before it exists. */
  lemma UnlockIsFirstCheckin(records: seq<TodayRecord>)
    requires HasKind(records, CheckinKind)
    ensures exists i :: (0 <= i < |records| && records[i].kind == CheckinKind &&
                         UnlockTime(records) == Some(records[i].createdAt + UnlockDelayMs) &&
                         forall j :: 0 <= j < i ==> records[j].kind != CheckinKind)
  {
    var i := FindKind(records, CheckinKind).value;
    assert records[i].kind == CheckinKind;
  }

  /** The boundary is inclusive: exactly eight hours after the check-in, checkout becomes enabled. */
  lemma UnlockBoundaryInclusive(checkinAt: int)
    ensures !CheckoutEnabledAt([TodayRecord(CheckinKind, checkinAt)], checkinAt + UnlockDelayMs - 1)
    ensures CheckoutEnabledAt([TodayRecord(CheckinKind, checkinAt)], checkinAt + UnlockDelayMs)
  {
    assert FindKind([TodayRecord(CheckinKind, checkinAt)], CheckinKind) == Some(0);
  }

  /**
   * The eight-hour rule is enforced only through the tab: the checkout button
   * never looks at the clock, so once checked in (and not yet out) it is
   * enabled whatever the time, while the tab that reaches it is not.
   */
  lemma EightHourRuleOnlyThroughTab(records: seq<TodayRecord>, fetchedAt: int)
    requires HasKind(records, CheckinKind) && !HasKind(records, CheckoutKind)
    requires fetchedAt < UnlockTime(records).value
    ensures TabAfterFetch(records) == CheckoutKind
    ensures !CheckoutTabEnabled(CheckoutEnabledAt(records, fetchedAt), true, false)
    ensures !CheckoutButtonDisabled(false, HasKind(records, CheckinKind), HasKind(records, CheckoutKind))
  {
  }

  /**
   * The lock end exists only once a check-in exists, so the check-in tab is
   * disabled exactly when the user has checked in, whatever the clock says.
   */
  lemma CheckinTabDisabledIffCheckedIn(records: seq<TodayRecord>, now: int)
    ensures CheckinTabDisabled(UnlockTime(records), now, HasKind(records, CheckinKind)) <==> HasKind(records, CheckinKind)
  {
  }

  /** Either a submission's payload or the reason it was refused before any request. */
  datatype Rejection = MoodRequired | SelfieRequired

  /** The validation of `handleSubmit`, in its order: mood for a check-out first, then the selfie. */
  function Validate(kind: string, selectedMood: Option<string>, selfiePreview: Option<string>): (r: Option<Rejection>)
    ensures kind == CheckoutKind && (selectedMood.None? || selectedMood == Some("")) ==> r == Some(MoodRequired)
    ensures r.None? <==> ((kind != CheckoutKind || (selectedMood.Some? && selectedMood.value != "")) &&
                          selfiePreview.Some? && selfiePreview.value != "")
    ensures ((kind != CheckoutKind || (selectedMood.Some? && selectedMood.value != "")) &&
             (selfiePreview.None? || selfiePreview.value == "")) ==> r == Some(SelfieRequired)
  {
    if kind == CheckoutKind && (selectedMood.None? || selectedMood.value == "") then Some(MoodRequired)
    else if selfiePreview.None? || selfiePreview.value == "" then Some(SelfieRequired)
    else None
  }

  /** `x || "unknown"` for an optional string. */
  function OrUnknown(s: Option<string>): (r: string)
    ensures r != ""
    ensures s.Some? && s.value != "" ==> r == s.value
  {
    if s.Some? && s.value != "" then s.value else "unknown"
  }

  function ExpressionOf(faceResult: Option<CheckinRoutes.FaceResult>): Option<string> {
    if faceResult.Some? then Some(faceResult.value.expression) else None
  }

  /** The body posted for a submission that passed validation. */
  function Payload(kind: string, selectedMood: Option<string>, description: string, selfie: string,
                   faceResult: Option<CheckinRoutes.FaceResult>): (p: CheckinRoutes.CheckinRequest)
    ensures p.kind == kind && p.description == description && p.selfieImage == selfie && p.faceData == faceResult
    ensures p.mood != ""
    ensures kind == CheckinKind ==> p.mood == OrUnknown(ExpressionOf(faceResult))
    ensures kind != CheckinKind ==> p.mood == OrUnknown(selectedMood)
  {
    CheckinRoutes.CheckinRequest(
      kind,
      if kind == CheckinKind then OrUnknown(ExpressionOf(faceResult)) else OrUnknown(selectedMood),
      description, selfie, faceResult)
  }

  /**
   * A check-in accepted by the backend records the face expression (or
   * "unknown") as its mood and is filed as present.
   */
  lemma CheckinRecordCarriesExpression(face: CheckinRoutes.FaceResult, description: string, selfie: string,
                                       uid: string, id: ObjectIds.ObjectId, now: int)
    requires face.expression != ""
    ensures var rec := CheckinRoutes.NewCheckin(Payload(CheckinKind, None, description, selfie, Some(face)), uid, id, now);
      rec.mood == face.expression && rec.kind == CheckinKind && rec.status == "present" && rec.faceResult == Some(face)
  {
  }

  /**
   * The dominant expression: `keys.reduce((a, b) => s[a] > s[b] ? a : b)`.
   * The accumulator is kept only when strictly greater, so among equal
   * maxima the later key wins.
   */
  function ArgMaxLast(scores: seq<int>): (r: nat)
    requires |scores| > 0
    ensures r < |scores|
    ensures forall j :: 0 <= j < |scores| ==> scores[j] <= scores[r]
    ensures forall j :: r < j < |scores| ==> scores[j] < scores[r]
  {
    if |scores| == 1 then 0
    else
      var a := ArgMaxLast(scores[..|scores| - 1]);
      assert forall j :: 0 <= j < |scores| - 1 ==> scores[..|scores| - 1][j] == scores[j];
      if scores[a] > scores[|scores| - 1] then a else |scores| - 1
  }

  /** Equal top scores: the later expression is chosen. */
  lemma TieGoesToLaterKey()
    ensures ArgMaxLast([3, 7, 7, 1]) == 2
  {
    assert [3, 7, 7, 1][..3] == [3, 7, 7];
    assert [3, 7, 7][..2] == [3, 7];
    assert [3, 7][..1] == [3];
  }

  /** A face-api detection: gender, age and the expression score map (names and scores in key order). */
  datatype Detection = Detection(gender: string, age: int, expressions: Option<seq<(string, int)>>)

  function Scores(expressions: seq<(string, int)>): (s: seq<int>)
    ensures |s| == |expressions|
    ensures forall i :: 0 <= i < |s| ==> s[i] == expressions[i].1
  {
    seq(|expressions|, i requires 0 <= i < |expressions| => expressions[i].1)
  }

  /** `mainExpression`: "-" without an expression map, else the name of the dominant score. */
  function MainExpression(expressions: Option<seq<(string, int)>>): (r: string)
    requires expressions.Some? ==> |expressions.value| > 0
    ensures expressions.None? ==> r == "-"
    ensures expressions.Some? ==>
      exists i :: (0 <= i < |expressions.value| && r == expressions.value[i].0 &&
                   (forall j :: 0 <= j < |expressions.value| ==> expressions.value[j].1 <= expressions.value[i].1) &&
                   forall j :: i < j < |expressions.value| ==> expressions.value[j].1 < expressions.value[i].1)
  {
    if expressions.None? then "-"
    else
      var i := ArgMaxLast(Scores(expressions.value));
      expressions.value[i].0
  }

  /** The page's state hooks. */
  class CheckinPageState {
    var todayCheckins: seq<TodayRecord>
    var loadingToday: bool
    var activeTab: string
    var checkinDisabledUntil: Option<int>
    var checkoutEnabled: bool
    var selectedMood: Option<string>
    var description: string
    var isSubmitting: bool
    var selfiePreview: Option<string>
    var isCameraOpen: bool
    var faceResult: Option<CheckinRoutes.FaceResult>

    /**
     * What every handler keeps: no handler ever sets a mood, the lock end is
     * the one derived from the current records, and checkout is enabled only
     * under a lock.
     */
    ghost predicate Valid()
      reads this
    {
      selectedMood.None? &&
      checkinDisabledUntil == UnlockTime(todayCheckins) &&
      (checkoutEnabled ==> checkinDisabledUntil.Some?)
    }

    predicate HasCheckedIn()
      reads this
    {
      HasKind(todayCheckins, CheckinKind)
    }

    predicate HasCheckedOut()
      reads this
    {
      HasKind(todayCheckins, CheckoutKind)
    }

    constructor ()
      ensures Valid()
      ensures todayCheckins == [] && loadingToday && activeTab == CheckinKind && !checkoutEnabled
      ensures selectedMood.None? && description == "" && !isSubmitting && selfiePreview.None?
      ensures !isCameraOpen && faceResult.None?
    {
      todayCheckins := [];
      loadingToday := true;
      activeTab := CheckinKind;
      checkinDisabledUntil := None;
      checkoutEnabled := false;
      selectedMood := None;
      description := "";
      isSubmitting := false;
      selfiePreview := None;
      isCameraOpen := false;
      faceResult := None;
    }

    /**
     * `fetchToday` completing at `now`: `Some(records)` is the response (a null
     * body reads as no records), `None` a failed request, which clears the
     * records and the lock but leaves the tab as it was.
     */
    method FetchToday(response: Option<seq<TodayRecord>>, now: int)
      requires Valid()
      modifies this`loadingToday, this`todayCheckins, this`checkinDisabledUntil, this`checkoutEnabled, this`activeTab
      ensures Valid()
      ensures !loadingToday
      ensures response.Some? ==>
        todayCheckins == response.value &&
        checkoutEnabled == CheckoutEnabledAt(response.value, now) &&
        activeTab == TabAfterFetch(response.value)
      ensures response.None? ==>
        todayCheckins == [] && checkinDisabledUntil.None? && !checkoutEnabled && activeTab == old(activeTab)
    {
      loadingToday := true;
      if response.Some? {
        var data := response.value;
        todayCheckins := data;
        var first := FindKind(data, CheckinKind);
        if first.Some? {
          var disableUntil := data[first.value].createdAt + UnlockDelayMs;
          checkinDisabledUntil := Some(disableUntil);
          checkoutEnabled := now >= disableUntil;
          activeTab := CheckoutKind;
        } else {
          checkinDisabledUntil := None;
          checkoutEnabled := false;
          activeTab := CheckinKind;
        }
      } else {
        todayCheckins := [];
        checkinDisabledUntil := None;
        checkoutEnabled := false;
      }
      loadingToday := false;
    }

    /** `openCamera`: the camera view opens (the media stream itself is not modelled). */
    method OpenCamera()
      requires Valid()
      modifies this
      ensures Valid()
      ensures isCameraOpen
      ensures todayCheckins == old(todayCheckins) && checkoutEnabled == old(checkoutEnabled)
      ensures activeTab == old(activeTab) && selfiePreview == old(selfiePreview) && faceResult == old(faceResult)
      ensures description == old(description) && isSubmitting == old(isSubmitting)
    {
      isCameraOpen := true;
    }

    /**
     * `handleCaptureSelfie`. `frame` is the canvas image, `None` when there is
     * no video element or no 2D context, in which case the handler returns
     * without a change. Detection then runs on the frame and only the first
     * detection is read. An empty expression map makes `reduce` throw after
     * the preview was set, so the face result is then left as it was.
     */
    method CaptureSelfie(frame: Option<string>, detections: seq<Detection>)
      requires Valid()
      modifies this`selfiePreview, this`isCameraOpen, this`faceResult
      ensures Valid()
      ensures frame.None? ==>
        faceResult == old(faceResult) && selfiePreview == old(selfiePreview) && isCameraOpen == old(isCameraOpen)
      ensures frame.Some? && detections == [] ==>
        faceResult.None? && selfiePreview == old(selfiePreview) && isCameraOpen == old(isCameraOpen)
      ensures frame.Some? && detections != [] ==> selfiePreview == frame && !isCameraOpen
      ensures frame.Some? && detections != [] && detections[0].expressions == Some([]) ==> faceResult == old(faceResult)
      ensures frame.Some? && detections != [] && detections[0].expressions != Some([]) ==>
        faceResult == Some(CheckinRoutes.FaceResult(detections[0].gender, detections[0].age,
                                                    MainExpression(detections[0].expressions)))
    {
      if frame.None? {
        return;
      }
      if |detections| > 0 {
        selfiePreview := frame;
        isCameraOpen := false;
        var info := detections[0];
        if info.expressions == Some([]) {
          return;
        }
        var mainExpression := MainExpression(info.expressions);
        faceResult := Some(CheckinRoutes.FaceResult(info.gender, info.age, mainExpression));
      } else {
        faceResult := None;
      }
    }

    /** The retake button of the check-in tab: preview and face result cleared. */
    method RetakeCheckin()
      requires Valid()
      modifies this
      ensures Valid()
      ensures selfiePreview.None? && faceResult.None?
      ensures todayCheckins == old(todayCheckins) && checkoutEnabled == old(checkoutEnabled)
      ensures activeTab == old(activeTab) && description == old(description) && isCameraOpen == old(isCameraOpen)
      ensures isSubmitting == old(isSubmitting)
    {
      selfiePreview := None;
      faceResult := None;
    }

    /** The retake button of the check-out tab: only the preview is cleared, the face result stays. */
    method RetakeCheckout()
      requires Valid()
      modifies this
      ensures Valid()
      ensures selfiePreview.None? && faceResult == old(faceResult)
      ensures todayCheckins == old(todayCheckins) && checkoutEnabled == old(checkoutEnabled)
      ensures activeTab == old(activeTab) && description == old(description) && isCameraOpen == old(isCameraOpen)
      ensures isSubmitting == old(isSubmitting)
    {
      selfiePreview := None;
    }

    method SetDescription(text: string)
      requires Valid()
      modifies this
      ensures Valid()
      ensures description == text
      ensures todayCheckins == old(todayCheckins) && checkoutEnabled == old(checkoutEnabled)
      ensures activeTab == old(activeTab) && selfiePreview == old(selfiePreview) && faceResult == old(faceResult)
      ensures isSubmitting == old(isSubmitting) && isCameraOpen == old(isCameraOpen)
    {
      description := text;
    }

    /**
     * A click on a tab trigger at render time `now`; a disabled trigger does
     * not change the tab.
     */
    method SelectTab(tab: string, now: int)
      requires Valid()
      modifies this
      ensures Valid()
      ensures tab == CheckinKind ==>
        activeTab == (if CheckinTabDisabled(checkinDisabledUntil, now, HasCheckedIn()) then old(activeTab) else tab)
      ensures tab == CheckoutKind ==>
        activeTab == (if CheckoutTabEnabled(checkoutEnabled, HasCheckedIn(), HasCheckedOut()) then tab else old(activeTab))
      ensures tab != CheckinKind && tab != CheckoutKind ==> activeTab == old(activeTab)
      ensures todayCheckins == old(todayCheckins) && checkoutEnabled == old(checkoutEnabled)
      ensures checkinDisabledUntil == old(checkinDisabledUntil)
      ensures selfiePreview == old(selfiePreview) && faceResult == old(faceResult) && description == old(description)
      ensures isSubmitting == old(isSubmitting) && isCameraOpen == old(isCameraOpen)
    {
      if tab == CheckinKind && !CheckinTabDisabled(checkinDisabledUntil, now, HasCheckedIn()) {
        activeTab := tab;
      } else if tab == CheckoutKind && CheckoutTabEnabled(checkoutEnabled, HasCheckedIn(), HasCheckedOut()) {
        activeTab := tab;
      }
    }

    /**
     * The synchronous part of `handleSubmit(kind)`: validation, then the
     * payload for the create request. A rejected submission changes nothing.
     */
    method StartSubmit(kind: string) returns (r: Result<CheckinRoutes.CheckinRequest, Rejection>)
      requires Valid()
      requires kind == CheckinKind || kind == CheckoutKind
      modifies this
      ensures Valid()
      ensures kind == CheckoutKind ==> r == Err(MoodRequired)
      ensures r.Err? ==> Some(r.error) == Validate(kind, selectedMood, selfiePreview) && isSubmitting == old(isSubmitting)
      ensures r.Ok? <==> Validate(kind, old(selectedMood), old(selfiePreview)).None?
      ensures r.Ok? ==>
        isSubmitting && selfiePreview.Some? && r.value == Payload(kind, selectedMood, description, selfiePreview.value, faceResult)
      ensures todayCheckins == old(todayCheckins) && checkoutEnabled == old(checkoutEnabled)
      ensures activeTab == old(activeTab) && selfiePreview == old(selfiePreview) && faceResult == old(faceResult)
      ensures description == old(description) && isCameraOpen == old(isCameraOpen)
    {
      var rejection := Validate(kind, selectedMood, selfiePreview);
      if rejection.Some? {
        return Err(rejection.value);
      }
      isSubmitting := true;
      r := Ok(Payload(kind, selectedMood, description, selfiePreview.value, faceResult));
    }

    /**
     * The end of `handleSubmit` once the create request settles: on success the
     * form is reset, on failure it is kept; either way submitting ends.
     */
    method FinishSubmit(created: bool)
      requires Valid()
      modifies this
      ensures Valid()
      ensures !isSubmitting
      ensures created ==> selectedMood.None? && description == "" && selfiePreview.None? && faceResult.None?
      ensures !created ==> description == old(description) && selfiePreview == old(selfiePreview) &&
                           faceResult == old(faceResult)
      ensures todayCheckins == old(todayCheckins) && checkoutEnabled == old(checkoutEnabled)
      ensures activeTab == old(activeTab) && isCameraOpen == old(isCameraOpen)
    {
      isSubmitting := false;
      if created {
        selectedMood := None;
        description := "";
        selfiePreview := None;
        faceResult := None;
      }
    }
  }

  /**
   * A full visit: fetched at 16:59 after a 09:00 check-in the checkout tab is
   * locked; at 17:00 it would be open, but only a new fetch notices, so a page
   * left open past 17:00 stays locked.
   */
  method StaleCheckoutLock(nineAm: int) returns (page: CheckinPageState)
    ensures fresh(page) && page.Valid()
    ensures page.activeTab == CheckoutKind
    ensures !CheckoutTabEnabled(page.checkoutEnabled, page.HasCheckedIn(), page.HasCheckedOut())
    ensures CheckoutEnabledAt(page.todayCheckins, nineAm + UnlockDelayMs)
  {
    page := new CheckinPageState();
    var records := [TodayRecord(CheckinKind, nineAm)];
    assert FindKind(records, CheckinKind) == Some(0);
    assert !HasKind(records, CheckoutKind);
    page.FetchToday(Some(records), nineAm + UnlockDelayMs - 60 * 1000);
    page.SetDescription("feeling fine");
  }

  /** Whatever the page has been through, submitting a check-out is refused for a missing mood. */
  method CheckoutNeverSubmits(page: CheckinPageState) returns (r: Result<CheckinRoutes.CheckinRequest, Rejection>)
    requires page.Valid()
    modifies page
    ensures r == Err(MoodRequired)
    ensures page.isSubmitting == old(page.isSubmitting)
  {
    r := page.StartSubmit(CheckoutKind);
  }
}
