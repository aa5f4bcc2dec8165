/**
 * The package service: input validation and pagination in front of the
 * package repository.
 *
 * The repository is not modelled. Each operation either names the single
 * repository call it makes and whose result it returns unchanged
 * (`Delegate`), or returns an error without touching the repository
 * (`Rejected`).
 */
module Service {
  import opened Wrappers

  // ---------------------------------------------------------------------
  // Domain values
  // ---------------------------------------------------------------------

  datatype Address = Address(name: string, address: string)

  datatype Event = Event(timestamp: int, location: string, status: string)

  datatype Package = Package(
    packageId: string,
    sender: Address,
    recipient: Address,
    origin: string,
    destination: string,
    currentStatus: string,
    createdAt: int,
    updatedAt: int,
    events: seq<Event>)

  /** The errors the service itself returns. */
  datatype ServiceError =
    | InvalidPackage
    | EmptyPackageId
    | SenderRequired
    | RecipientRequired
    | OriginRequired
    | DestinationRequired
    | CurrentStatusRequired

  /** The text each error carries. */
  function ErrorText(e: ServiceError): string
  {
    match e
    case InvalidPackage => "invalid package data"
    case EmptyPackageId => "package ID cannot be empty"
    case SenderRequired => "sender name and address are required"
    case RecipientRequired => "recipient name and address are required"
    case OriginRequired => "origin is required"
    case DestinationRequired => "destination is required"
    case CurrentStatusRequired => "current status is required"
  }

  /** The repository calls the service can make. */
  datatype RepoCall =
    | FindByID(id: string)
    | FindAll(page: int, size: int)
    | Search(query: string, page: int, size: int)
    | Create(pkg: Package)
    | Update(pkg: Package)
    | Delete(id: string)

  datatype Outcome = Delegate(call: RepoCall) | Rejected(error: ServiceError)

  // ---------------------------------------------------------------------
  // Blank strings
  // ---------------------------------------------------------------------

  /** White space as Go's unicode.IsSpace defines it. */
  predicate IsSpace(c: char)
  {
    || c == '\t' || c == '\n' || c == '\U{000B}' || c == '\U{000C}' || c == '\r' || c == ' '
    || c == '\U{0085}' || c == '\U{00A0}' || c == '\U{1680}'
    || ('\U{2000}' <= c <= '\U{200A}')
    || c == '\U{2028}' || c == '\U{2029}' || c == '\U{202F}' || c == '\U{205F}' || c == '\U{3000}'
  }

  /** `s` without its leading white space. */
  function TrimLeft(s: string): (r: string)
    ensures |r| <= |s| && r == s[|s| - |r|..]
    ensures r == [] || !IsSpace(r[0])
    ensures forall i :: 0 <= i < |s| - |r| ==> IsSpace(s[i])
  {
    if s != [] && IsSpace(s[0]) then TrimLeft(s[1..]) else s
  }

  /** `s` without its trailing white space. */
  function TrimRight(s: string): (r: string)
    ensures |r| <= |s| && r == s[..|r|]
    ensures r == [] || !IsSpace(r[|r| - 1])
    ensures forall i :: |r| <= i < |s| ==> IsSpace(s[i])
  {
    if s != [] && IsSpace(s[|s| - 1]) then TrimRight(s[..|s| - 1]) else s
  }

  /** strings.TrimSpace: drop leading and trailing white space. */
  function TrimSpace(s: string): (r: string)
    ensures var lead := |s| - |TrimLeft(s)|;
      && lead + |r| <= |s| && r == s[lead..lead + |r|]
      && (forall i :: 0 <= i < lead ==> IsSpace(s[i]))
      && (forall i :: lead + |r| <= i < |s| ==> IsSpace(s[i]))
    ensures r == [] || (!IsSpace(r[0]) && !IsSpace(r[|r| - 1]))
  {
    TrimRight(TrimLeft(s))
  }

  /**
   * A blank string: nothing but white space. The source tests
   * `strings.TrimSpace(s) == ""`; BlankIsTrimmedEmpty shows the two agree.
   */
  predicate Blank(s: string)
  {
    forall i :: 0 <= i < |s| ==> IsSpace(s[i])
  }

  /** A string trims to nothing exactly when every character in it is white space. */
  lemma BlankIsTrimmedEmpty(s: string)
    ensures TrimSpace(s) == "" <==> Blank(s)
  {
  }

  // ---------------------------------------------------------------------
  // Validation
  // ---------------------------------------------------------------------

  /** The fields validation requires, in the order it checks them. */
  function RequiredFields(p: Package): seq<string>
  {
    [p.packageId, p.sender.name, p.sender.address, p.recipient.name, p.recipient.address,
     p.origin, p.destination, p.currentStatus]
  }

  /**
   * validatePackage: the first failing check in a fixed order (missing
   * package, ID, sender, recipient, origin, destination, current status),
   * or nothing when every required field is non-blank.
   */
  function ValidatePackage(pkg: Option<Package>): (r: Option<ServiceError>)
    ensures r.None? <==>
              pkg.Some? && forall i :: 0 <= i < |RequiredFields(pkg.value)| ==> !Blank(RequiredFields(pkg.value)[i])
    ensures r == Some(InvalidPackage) <==> pkg.None?
    ensures r == Some(EmptyPackageId) <==> pkg.Some? && Blank(pkg.value.packageId)
    ensures r == Some(SenderRequired) <==>
              && pkg.Some? && !Blank(pkg.value.packageId)
              && (Blank(pkg.value.sender.name) || Blank(pkg.value.sender.address))
    ensures r == Some(RecipientRequired) <==>
              && pkg.Some? && !Blank(pkg.value.packageId)
              && !Blank(pkg.value.sender.name) && !Blank(pkg.value.sender.address)
              && (Blank(pkg.value.recipient.name) || Blank(pkg.value.recipient.address))
    ensures r == Some(OriginRequired) <==>
              pkg.Some? && (forall i :: 0 <= i < 5 ==> !Blank(RequiredFields(pkg.value)[i]))
              && Blank(pkg.value.origin)
    ensures r == Some(DestinationRequired) <==>
              pkg.Some? && (forall i :: 0 <= i < 6 ==> !Blank(RequiredFields(pkg.value)[i]))
              && Blank(pkg.value.destination)
    ensures r == Some(CurrentStatusRequired) <==>
              pkg.Some? && (forall i :: 0 <= i < 7 ==> !Blank(RequiredFields(pkg.value)[i]))
              && Blank(pkg.value.currentStatus)
  {
    if pkg.None? then Some(InvalidPackage)
    else
      var p := pkg.value;
      var fields := RequiredFields(p);
      assert fields[0] == p.packageId && fields[1] == p.sender.name && fields[2] == p.sender.address;
      assert fields[3] == p.recipient.name && fields[4] == p.recipient.address;
      assert fields[5] == p.origin && fields[6] == p.destination && fields[7] == p.currentStatus;
      if Blank(p.packageId) then Some(EmptyPackageId)
      else if Blank(p.sender.name) || Blank(p.sender.address) then Some(SenderRequired)
      else if Blank(p.recipient.name) || Blank(p.recipient.address) then Some(RecipientRequired)
      else if Blank(p.origin) then Some(OriginRequired)
      else if Blank(p.destination) then Some(DestinationRequired)
      else if Blank(p.currentStatus) then Some(CurrentStatusRequired)
      else None
  }

  /**
   * A package that carries only an ID fails on the sender, the first
   * check after the ID, not on the recipient.
   */
  lemma IdOnlyPackageFailsOnSender(p: Package)
    requires !Blank(p.packageId) && p.sender == Address("", "") && p.recipient == Address("", "")
    ensures ValidatePackage(Some(p)) == Some(SenderRequired)
    ensures ErrorText(ValidatePackage(Some(p)).value) == "sender name and address are required"
  {
  }

  // ---------------------------------------------------------------------
  // Operations
  // ---------------------------------------------------------------------

  /** GetPackage: a blank ID is refused; otherwise the ID, untrimmed, goes to FindByID. */
  function GetPackage(id: string): (r: Outcome)
    ensures Blank(id) <==> r == Rejected(EmptyPackageId)
    ensures !Blank(id) ==> r == Delegate(FindByID(id))
  {
    if Blank(id) then Rejected(EmptyPackageId) else Delegate(FindByID(id))
  }

  /** DeletePackage: a blank ID is refused; otherwise the ID, untrimmed, goes to Delete. */
  function DeletePackage(id: string): (r: Outcome)
    ensures Blank(id) <==> r == Rejected(EmptyPackageId)
    ensures !Blank(id) ==> r == Delegate(Delete(id))
  {
    if Blank(id) then Rejected(EmptyPackageId) else Delegate(Delete(id))
  }

  function ClampPage(page: int): int
  {
    if page < 1 then 1 else page
  }

  function ClampSize(size: int): int
  {
    if size < 1 then 10 else if size > 100 then 100 else size
  }

  /**
   * ListPackages: always reaches the repository, with a page of at least 1
   * and a size between 1 and 100; a size below 1 becomes 10, one above 100
   * becomes 100, and values already in range pass through.
   */
  function ListPackages(page: int, size: int): (r: Outcome)
    ensures r.Delegate? && r.call.FindAll?
    ensures r.call.page >= 1 && 1 <= r.call.size <= 100
    ensures page >= 1 ==> r.call.page == page
    ensures page < 1 ==> r.call.page == 1
    ensures size < 1 ==> r.call.size == 10
    ensures size > 100 ==> r.call.size == 100
    ensures 1 <= size <= 100 ==> r.call.size == size
  {
    Delegate(FindAll(ClampPage(page), ClampSize(size)))
  }

  /** SearchPackages: the same page and size rules, with the query passed through unchanged. */
  function SearchPackages(query: string, page: int, size: int): (r: Outcome)
    ensures r.Delegate? && r.call.Search? && r.call.query == query
    ensures ListPackages(page, size) == Delegate(FindAll(r.call.page, r.call.size))
  {
    Delegate(Search(query, ClampPage(page), ClampSize(size)))
  }

  /** Clamping is idempotent: a request that was already clamped is passed on as it is. */
  lemma ClampingIdempotent(page: int, size: int)
    ensures var c := ListPackages(page, size).call;
      ListPackages(c.page, c.size) == ListPackages(page, size)
  {
  }

  /** CreatePackage: the repository is called only for a valid package; otherwise the validation error is returned. */
  function CreatePackage(pkg: Option<Package>): (r: Outcome)
    ensures r.Delegate? <==> ValidatePackage(pkg).None?
    ensures r.Delegate? ==> r.call == Create(pkg.value)
    ensures r.Rejected? ==> Some(r.error) == ValidatePackage(pkg)
  {
    match ValidatePackage(pkg)
    case Some(e) => Rejected(e)
    case None => Delegate(Create(pkg.value))
  }

  /** UpdatePackage: the repository is called only for a valid package; otherwise the validation error is returned. */
  function UpdatePackage(pkg: Option<Package>): (r: Outcome)
    ensures r.Delegate? <==> ValidatePackage(pkg).None?
    ensures r.Delegate? ==> r.call == Update(pkg.value)
    ensures r.Rejected? ==> Some(r.error) == ValidatePackage(pkg)
  {
    match ValidatePackage(pkg)
    case Some(e) => Rejected(e)
    case None => Delegate(Update(pkg.value))
  }
}
