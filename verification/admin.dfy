/** The admin dashboard of app/routes/admin.tsx, without its data loading:
    the bound check around code generation, the code-list filter and the
    counts shown beside its options, and the status badges of codes and
    attendees. */
module Admin {
  import opened Wrappers
  import opened JsText
  import Api

  type QRCode = Api.QRCode

  datatype CodeFilter = All | Initialized | Uninitialized | Used

  /** The test `filteredCodes` applies for each filter value. */
  predicate Keeps(filter: CodeFilter, c: QRCode) {
    match filter
    case Initialized => c.name != Null
    case Uninitialized => c.name == Null
    case Used => c.scanCount > 0
    case All => true
  }

  /** `Array.prototype.filter`. */
  function Select(codes: seq<QRCode>, p: QRCode -> bool): (r: seq<QRCode>)
    ensures |r| <= |codes|
    ensures forall x :: x in r <==> x in codes && p(x)
  {
    if codes == [] then []
    else (if p(codes[0]) then [codes[0]] else []) + Select(codes[1..], p)
  }

  /** `r` is `s` with some elements left out and the rest in their order. */
  ghost predicate IsSubsequence(r: seq<QRCode>, s: seq<QRCode>)
    decreases |s|
  {
    if r == [] then true
    else if s == [] then false
    else (r[0] == s[0] && IsSubsequence(r[1..], s[1..])) || IsSubsequence(r, s[1..])
  }

  /** The codes listed under a filter. */
  function FilteredCodes(codes: seq<QRCode>, filter: CodeFilter): seq<QRCode> {
    Select(codes, c => Keeps(filter, c))
  }

  lemma {:induction false} SelectIsSubsequence(codes: seq<QRCode>, p: QRCode -> bool)
    ensures IsSubsequence(Select(codes, p), codes)
    decreases |codes|
  {
    if codes != [] {
      SelectIsSubsequence(codes[1..], p);
      var rest := Select(codes[1..], p);
      if p(codes[0]) {
        assert Select(codes, p) == [codes[0]] + rest;
        assert ([codes[0]] + rest)[1..] == rest;
      } else {
        assert Select(codes, p) == rest;
        if rest != [] {
          assert IsSubsequence(rest, codes[1..]);
        }
      }
    }
  }

  /** A selection keeps every occurrence of a passing code and none of a
      failing one. */
  lemma {:induction false} SelectMultiplicity(codes: seq<QRCode>, p: QRCode -> bool)
    ensures forall x :: multiset(Select(codes, p))[x] == if p(x) then multiset(codes)[x] else 0
    decreases |codes|
  {
    if codes != [] {
      SelectMultiplicity(codes[1..], p);
      assert codes == [codes[0]] + codes[1..];
    }
  }

  /** Every filter lists only codes from the list, in the list's order, and
      exactly those that pass its test, each as often as the list holds it;
      'all' lists the whole list. */
  lemma FilterIsOrderedSelection(codes: seq<QRCode>, filter: CodeFilter)
    ensures IsSubsequence(FilteredCodes(codes, filter), codes)
    ensures forall x :: x in FilteredCodes(codes, filter) <==> x in codes && Keeps(filter, x)
    ensures forall x :: multiset(FilteredCodes(codes, filter))[x] == if Keeps(filter, x) then multiset(codes)[x] else 0
    ensures filter == All ==> FilteredCodes(codes, filter) == codes
  {
    SelectIsSubsequence(codes, c => Keeps(filter, c));
    SelectMultiplicity(codes, c => Keeps(filter, c));
    if filter == All {
      SelectAll(codes, c => Keeps(filter, c));
    }
  }

  lemma {:induction false} SelectAll(codes: seq<QRCode>, p: QRCode -> bool)
    requires forall x :: x in codes ==> p(x)
    ensures Select(codes, p) == codes
    decreases |codes|
  {
    if codes != [] {
      SelectAll(codes[1..], p);
    }
  }

  /** A test and its negation split the list: the two selections together
      hold every code exactly as often as the list does. */
  lemma {:induction false} SelectSplits(codes: seq<QRCode>, p: QRCode -> bool, q: QRCode -> bool)
    requires forall x :: q(x) == !p(x)
    ensures |Select(codes, p)| + |Select(codes, q)| == |codes|
    ensures multiset(Select(codes, p)) + multiset(Select(codes, q)) == multiset(codes)
    decreases |codes|
  {
    if codes != [] {
      SelectSplits(codes[1..], p, q);
      assert codes == [codes[0]] + codes[1..];
    }
  }

  /** 'initialized' (name not null) and 'uninitialized' (name null) partition
      the code list: no code is in both and together they hold all codes. */
  lemma InitializedPartition(codes: seq<QRCode>)
    ensures forall x :: !(x in FilteredCodes(codes, Initialized) && x in FilteredCodes(codes, Uninitialized))
    ensures |FilteredCodes(codes, Initialized)| + |FilteredCodes(codes, Uninitialized)| == |codes|
    ensures multiset(FilteredCodes(codes, Initialized)) + multiset(FilteredCodes(codes, Uninitialized)) == multiset(codes)
  {
    SelectSplits(codes, c => Keeps(Initialized, c), c => Keeps(Uninitialized, c));
  }

  /** The count beside the 'Initialized' option: codes whose name is truthy. */
  function InitializedOptionCount(codes: seq<QRCode>): nat {
    |Select(codes, (c: QRCode) => c.name.Truthy())|
  }

  /** The count beside the 'Pending' option: codes whose name is falsy. */
  function PendingOptionCount(codes: seq<QRCode>): nat {
    |Select(codes, (c: QRCode) => !c.name.Truthy())|
  }

  lemma OptionCountsCoverList(codes: seq<QRCode>)
    ensures InitializedOptionCount(codes) + PendingOptionCount(codes) == |codes|
  {
    SelectSplits(codes, (c: QRCode) => c.name.Truthy(), (c: QRCode) => !c.name.Truthy());
  }

  /** Selecting with a weaker test keeps at least as many codes, and exactly
      as many when no code passes only the weaker one. */
  lemma {:induction false} SelectWeaker(codes: seq<QRCode>, p: QRCode -> bool, q: QRCode -> bool)
    requires forall x :: p(x) ==> q(x)
    ensures |Select(codes, p)| <= |Select(codes, q)|
    ensures |Select(codes, p)| == |Select(codes, q)| <==> forall x :: x in codes && q(x) ==> p(x)
    decreases |codes|
  {
    if codes != [] {
      SelectWeaker(codes[1..], p, q);
      assert forall x :: x in codes <==> x == codes[0] || x in codes[1..];
    }
  }

  /** The option counts test truthiness while the filters test null: the
      'Initialized' count equals the length of the 'initialized' list exactly
      when no code has an undefined or empty name. */
  lemma OptionCountMatchesFilterIff(codes: seq<QRCode>)
    ensures InitializedOptionCount(codes) <= |FilteredCodes(codes, Initialized)|
    ensures InitializedOptionCount(codes) == |FilteredCodes(codes, Initialized)| <==>
            forall x :: x in codes ==> x.name != Undefined && x.name != Str("")
  {
    SelectWeaker(codes, (c: QRCode) => c.name.Truthy(), c => Keeps(Initialized, c));
  }

  datatype CodeStatus = Pending | FullyUsed | PartiallyUsed | Ready

  /** The badge of a code in the code table, tested in this order. */
  function StatusOfCode(c: QRCode): CodeStatus {
    if !c.name.Truthy() then Pending
    else if c.scanCount >= c.maxScans then FullyUsed
    else if c.scanCount > 0 then PartiallyUsed
    else Ready
  }

  datatype AttendeeStatus = FullyAttended | PartiallyAttended | RegisteredOnly

  /** The badge of an attendee. */
  function StatusOfAttendee(a: Api.Attendee): AttendeeStatus {
    if a.scanCount >= a.maxScans then FullyAttended
    else if a.scanCount > 0 then PartiallyAttended
    else RegisteredOnly
  }

  function UsageRank(s: CodeStatus): nat {
    match s
    case Pending => 0
    case Ready => 0
    case PartiallyUsed => 1
    case FullyUsed => 2
  }

  /** One more accepted scan never moves a code's badge backwards, and a
      registered code's badge tells how its scans compare with its budget. */
  lemma CodeStatusFollowsScans(c: QRCode)
    ensures StatusOfCode(c) == Pending <==> !c.name.Truthy()
    ensures c.name.Truthy() && c.maxScans > 0 && c.scanCount == 0 ==> StatusOfCode(c) == Ready
    ensures StatusOfCode(c) == Ready ==> c.scanCount <= 0 && c.scanCount < c.maxScans
    ensures StatusOfCode(c) == PartiallyUsed ==> 0 < c.scanCount < c.maxScans
    ensures var next := c.(scanCount := c.scanCount + 1);
      StatusOfCode(next) == Pending <==> StatusOfCode(c) == Pending
    ensures var next := c.(scanCount := c.scanCount + 1);
      UsageRank(StatusOfCode(c)) <= UsageRank(StatusOfCode(next))
  {
  }

  /** A registered code and the attendee row made from it get matching
      badges: Fully Used with Fully Attended, Partially Used with Partially
      Attended, Ready with Registered Only. */
  lemma CodeAndAttendeeAgree(c: QRCode, initializedAt: string)
    requires c.name.Truthy()
    ensures var a := Api.Attendee(c.name.s, c.qrNumber, initializedAt, c.scanCount, c.maxScans);
      (StatusOfCode(c) == FullyUsed <==> StatusOfAttendee(a) == FullyAttended) &&
      (StatusOfCode(c) == PartiallyUsed <==> StatusOfAttendee(a) == PartiallyAttended) &&
      (StatusOfCode(c) == Ready <==> StatusOfAttendee(a) == RegisteredOnly)
  {
  }

  /** The generation count the panel accepts. */
  predicate CountInRange(count: int) {
    1 <= count <= 1000
  }

  class AdminPanel {
    var codes: seq<QRCode>
    var filterStatus: CodeFilter
    var generateCount: int
    var generating: bool
    var error: Option<string>

    /** The panel once its data has loaded. */
    constructor (codes: seq<QRCode>)
      ensures this.codes == codes && filterStatus == All
      ensures generateCount == 50 && !generating && error.None?
    {
      this.codes := codes;
      filterStatus := All;
      generateCount := 50;
      generating := false;
      error := None;
    }

    /** The codes the table lists. */
    function Listed(): seq<QRCode>
      reads this
    {
      FilteredCodes(codes, filterStatus)
    }

    /** The filter dropdown changes. */
    method SetFilter(filter: CodeFilter)
      modifies this
      ensures filterStatus == filter && Listed() == FilteredCodes(codes, filter)
      ensures codes == old(codes) && generateCount == old(generateCount)
      ensures generating == old(generating) && error == old(error)
    {
      filterStatus := filter;
    }

    /** The count input changes: `parseInt(value) || 0`, where `parsed` is
        `None` when `parseInt` gives NaN. */
    method SetGenerateCount(parsed: Option<int>)
      modifies this
      ensures generateCount == parsed.GetOr(0)
      ensures codes == old(codes) && filterStatus == old(filterStatus)
      ensures generating == old(generating) && error == old(error)
    {
      generateCount := parsed.GetOr(0);
    }

    /** `handleGenerateQRCodes` up to its `await` (its button is disabled while
        generating). Out of range it only alerts and returns; otherwise it
        calls `generateQRCodes(generateCount)`, which `requested` reports. */
    method BeginGenerate() returns (requested: Option<int>)
      requires !generating
      modifies this
      ensures codes == old(codes) && filterStatus == old(filterStatus) && generateCount == old(generateCount)
      ensures !CountInRange(generateCount) ==> requested.None? && !generating && error == old(error)
      ensures CountInRange(generateCount) ==> requested == Some(generateCount) && generating && error.None?
    {
      if generateCount < 1 || generateCount > 1000 {
        requested := None;
        return;
      }
      generating, error := true, None;
      requested := Some(generateCount);
    }

    /** The awaited `generateQRCodes` call settles. On success the data is
        reloaded (`reload`); on failure the error is shown. `generating` is
        cleared either way. */
    method GenerateSettled(reply: Result<seq<Api.Json>, Api.Exc>) returns (reload: bool)
      requires generating
      modifies this
      ensures !generating
      ensures codes == old(codes) && filterStatus == old(filterStatus) && generateCount == old(generateCount)
      ensures reload <==> reply.Ok?
      ensures reply.Ok? ==> error == old(error)
      ensures reply.Err? ==>
        error == Some(Api.ErrorText(reply.error, "Failed to generate QR codes"))
    {
      match reply {
        case Ok(_) =>
          reload := true;
        case Err(e) =>
          error := Some(Api.ErrorText(e, "Failed to generate QR codes"));
          reload := false;
      }
      generating := false;
    }
  }

  /** An administrator types a count and presses "generate": no request is
      made for a count outside 1..1000 (NaN counts as 0). */
  method TryGenerate(codes: seq<QRCode>, typed: Option<int>) returns (requested: Option<int>)
    ensures requested.Some? <==> typed.Some? && CountInRange(typed.value)
    ensures requested.Some? ==> requested == typed
  {
    var panel := new AdminPanel(codes);
    panel.SetGenerateCount(typed);
    requested := panel.BeginGenerate();
  }
}
