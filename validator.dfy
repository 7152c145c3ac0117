/**
 * The request-body schemas: field constraints and the cross-field
 * refinements, each schema as an acceptance predicate over a record of
 * optional fields (a field is `None` when the body does not carry it).
 * JSON numbers are `real`s; the e-mail and URL formats are delegated to the
 * schema library and appear as the predicates `isEmail` and `isUrl`.
 */
module Validator {

  import opened Wrappers
  import opened Text
  import opened Roles

  /** `z.number().int()` */
  predicate IsInteger(x: real) {
    x.Floor as real == x
  }

  /** `z.number().int().positive()` */
  predicate PositiveInteger(x: real) {
    IsInteger(x) && x > 0.0
  }

  /** An optional string field with `.min(n)`. */
  predicate MinLength(s: Option<string>, n: nat) {
    s.None? || |s.value| >= n
  }

  /** An optional string field with `.max(n)`. */
  predicate MaxLength(s: Option<string>, n: nat) {
    s.None? || |s.value| <= n
  }

  /** An optional field checked by `check` when present. */
  predicate Present<T>(x: Option<T>, check: T -> bool) {
    x.None? || check(x.value)
  }

  // userUpdateSchema

  datatype UserUpdate = UserUpdate(
    firstName: Option<string>, lastName: Option<string>, email: Option<string>,
    password: Option<string>, role: Option<string>, libraryId: Option<real>, phone: Option<string>)

  /** `Object.values(data).some(val => val !== undefined)` */
  predicate AnyUserFieldProvided(u: UserUpdate) {
    u.firstName.Some? || u.lastName.Some? || u.email.Some? || u.password.Some? ||
    u.role.Some? || u.libraryId.Some? || u.phone.Some?
  }

  predicate UserUpdateValid(u: UserUpdate, isEmail: string -> bool) {
    && MinLength(u.firstName, 2)
    && MinLength(u.lastName, 2)
    && Present(u.email, isEmail)
    && MinLength(u.password, 6)
    && (u.role.None? || u.role.value in VALID_ROLES)
    && MinLength(u.phone, 10)
    && AnyUserFieldProvided(u)
  }

  /** An update that carries no field at all is refused, whatever the format checks say. */
  lemma EmptyUserUpdateRejected(isEmail: string -> bool)
    ensures !UserUpdateValid(UserUpdate(None, None, None, None, None, None, None), isEmail)
  {
  }

  /** An accepted user update carries at least one field, and a role it carries is a `UserRole`. */
  lemma AcceptedUserUpdate(u: UserUpdate, isEmail: string -> bool)
    requires UserUpdateValid(u, isEmail)
    ensures AnyUserFieldProvided(u)
    ensures u.role.Some? ==> u.role.value in VALID_ROLES
    ensures u.password.Some? ==> |u.password.value| >= 6
  {
  }

  // libraryUpdateSchema

  datatype LibraryUpdate = LibraryUpdate(name: Option<string>, address: Option<string>, contact: Option<string>)

  /** `Object.keys(data).length > 0`, on the parsed object (unknown keys are stripped). */
  predicate AnyLibraryFieldProvided(l: LibraryUpdate) {
    l.name.Some? || l.address.Some? || l.contact.Some?
  }

  predicate LibraryUpdateValid(l: LibraryUpdate) {
    MinLength(l.name, 3) && MinLength(l.address, 10) && MinLength(l.contact, 6) && AnyLibraryFieldProvided(l)
  }

  /** A library update with no known field is refused. */
  lemma EmptyLibraryUpdateRejected()
    ensures !LibraryUpdateValid(LibraryUpdate(None, None, None))
  {
  }

  // assignManagerSchema

  /** `assignManagerSchema.safeParse({ userId })`: the id of the user to promote, or nothing. */
  function ParseAssignManager(userId: Option<real>): (r: Option<int>)
    ensures r.Some? <==> userId.Some? && IsInteger(userId.value) && userId.value > 0.0
    ensures r.Some? ==> r.value > 0 && r.value as real == userId.value
  {
    if userId.Some? && PositiveInteger(userId.value) then Some(userId.value.Floor) else None
  }

  // bookCreateSchema and bookUpdateSchema

  /**
   * A member of `BookStatus`.  The generated enumeration is not part of this
   * model: the schemas name `AVAILABLE` and `SOLD`, and `OtherStatus` holds
   * the name of any other member.
   */
  datatype BookStatus = Available | Sold | OtherStatus(name: string)

  /** The string a member stands for in a request body. */
  function StatusName(status: BookStatus): string {
    match status
    case Available => "AVAILABLE"
    case Sold => "SOLD"
    case OtherStatus(name) => name
  }

  /** A member whose name is `AVAILABLE`, `SOLD` or one of `otherStatuses`. */
  predicate KnownStatus(status: BookStatus, otherStatuses: set<string>) {
    status.OtherStatus? ==> status.name in otherStatuses && status.name != "AVAILABLE" && status.name != "SOLD"
  }

  /**
   * `z.nativeEnum(BookStatus)` on a string: the member it names, or nothing
   * when it names none (`otherStatuses` are the members besides AVAILABLE and SOLD).
   */
  function ParseStatus(text: string, otherStatuses: set<string>): (r: Option<BookStatus>)
    ensures r.None? <==> text != "AVAILABLE" && text != "SOLD" && text !in otherStatuses
    ensures r.Some? ==> StatusName(r.value) == text && KnownStatus(r.value, otherStatuses)
  {
    if text == "AVAILABLE" then Some(Available)
    else if text == "SOLD" then Some(Sold)
    else if text in otherStatuses then Some(OtherStatus(text))
    else None
  }

  /** Every member is read back from its name. */
  lemma ParseStatusName(status: BookStatus, otherStatuses: set<string>)
    requires KnownStatus(status, otherStatuses)
    ensures ParseStatus(StatusName(status), otherStatuses) == Some(status)
  {
  }

  datatype BookCreateInput = BookCreateInput(
    title: Option<string>, author: Option<string>, categoryId: Option<real>,
    isbn: Option<string>, summary: Option<string>, pages: Option<real>,
    coverUrl: Option<string>, status: Option<string>)

  /** The parsed book: required fields present, numbers integral, the status defaulted. */
  datatype BookCreate = BookCreate(
    title: string, author: string, categoryId: int,
    isbn: Option<string>, summary: Option<string>, pages: Option<int>,
    coverUrl: Option<string>, status: BookStatus)

  /** `bookCreateSchema.safeParse(body)` */
  function ParseBookCreate(b: BookCreateInput, isUrl: string -> bool, otherStatuses: set<string>): (r: Option<BookCreate>)
    ensures r.Some? <==>
      && b.title.Some? && |b.title.value| >= 2
      && b.author.Some? && |b.author.value| >= 2
      && b.categoryId.Some? && PositiveInteger(b.categoryId.value)
      && MinLength(b.isbn, 10)
      && Present(b.pages, PositiveInteger)
      && Present(b.coverUrl, isUrl)
      && (b.status.None? || ParseStatus(b.status.value, otherStatuses).Some?)
    ensures r.Some? ==>
      && r.value.title == b.title.value && r.value.author == b.author.value
      && r.value.categoryId > 0 && r.value.categoryId as real == b.categoryId.value
      && r.value.isbn == b.isbn && r.value.summary == b.summary && r.value.coverUrl == b.coverUrl
      && (b.pages.Some? <==> r.value.pages.Some?)
      && (r.value.pages.Some? ==> r.value.pages.value > 0 && r.value.pages.value as real == b.pages.value)
      && StatusName(r.value.status) == b.status.GetOr("AVAILABLE")
  {
    if && b.title.Some? && |b.title.value| >= 2
       && b.author.Some? && |b.author.value| >= 2
       && b.categoryId.Some? && PositiveInteger(b.categoryId.value)
       && MinLength(b.isbn, 10)
       && Present(b.pages, PositiveInteger)
       && Present(b.coverUrl, isUrl)
       && (b.status.None? || ParseStatus(b.status.value, otherStatuses).Some?)
    then
      var pages := if b.pages.Some? then Some(b.pages.value.Floor) else None;
      var status := if b.status.Some? then ParseStatus(b.status.value, otherStatuses).value else Available;
      Some(BookCreate(b.title.value, b.author.value, b.categoryId.value.Floor,
                      b.isbn, b.summary, pages, b.coverUrl, status))
    else None
  }

  /** A created book whose body names no status is AVAILABLE. */
  lemma BookCreateStatusDefault(b: BookCreateInput, isUrl: string -> bool, otherStatuses: set<string>)
    requires b.status.None? && ParseBookCreate(b, isUrl, otherStatuses).Some?
    ensures ParseBookCreate(b, isUrl, otherStatuses).value.status == Available
  {
  }

  /** A body whose status names no member of `BookStatus` creates no book. */
  lemma BookCreateUnknownStatusRejected(b: BookCreateInput, isUrl: string -> bool, otherStatuses: set<string>)
    requires b.status.Some? && b.status.value != "AVAILABLE" && b.status.value != "SOLD"
    requires b.status.value !in otherStatuses
    ensures ParseBookCreate(b, isUrl, otherStatuses).None?
  {
  }

  /** `n` decimal digits and nothing else: `\d{n}` anchored at both ends. */
  predicate DigitRun(s: string, n: nat) {
    if n == 0 then s == [] else s != [] && IsDigit(s[0]) && DigitRun(s[1..], n - 1)
  }

  /** `/^(?:\d{10}|\d{13})$/.test(s)` */
  predicate IsbnPattern(s: string) {
    DigitRun(s, 10) || DigitRun(s, 13)
  }

  /** `\d{n}` anchored matches exactly the strings of n ASCII digits. */
  lemma {:induction false} DigitRunIff(s: string, n: nat)
    ensures DigitRun(s, n) <==> |s| == n && forall i :: 0 <= i < |s| ==> IsDigit(s[i])
  {
    if n > 0 && s != [] {
      DigitRunIff(s[1..], n - 1);
      assert forall i :: 1 <= i < |s| ==> s[i] == s[1..][i - 1];
    }
  }

  /** The ISBN pattern admits exactly the strings of 10 or of 13 digits. */
  lemma IsbnPatternIff(s: string)
    ensures IsbnPattern(s) <==> (|s| == 10 || |s| == 13) && forall i :: 0 <= i < |s| ==> IsDigit(s[i])
  {
    DigitRunIff(s, 10);
    DigitRunIff(s, 13);
  }

  datatype BookUpdate = BookUpdate(
    title: Option<string>, summary: Option<string>, coverUrl: Option<string>,
    status: Option<string>, isbn: Option<string>, publishedDate: Option<int>,
    pageCount: Option<real>, language: Option<string>, authorId: Option<real>,
    categoryId: Option<real>, libraryId: Option<real>, isSellable: Option<bool>,
    price: Option<real>)

  /** `z.number().int().min(1).max(5000)` */
  predicate PageCountOk(x: real) {
    IsInteger(x) && 1.0 <= x <= 5000.0
  }

  /** `z.number().min(0).max(1000)` */
  predicate PriceOk(x: real) {
    0.0 <= x <= 1000.0
  }

  /**
   * The per-field constraints of the update.  `publishedDate` is a time in
   * milliseconds and `now` the clock reading that `new Date()` took once,
   * when the schema module was loaded: a date later than that is refused.
   */
  predicate BookUpdateFieldsValid(u: BookUpdate, isUrl: string -> bool, otherStatuses: set<string>, now: int) {
    && MinLength(u.title, 2) && MaxLength(u.title, 100)
    && MaxLength(u.summary, 1000)
    && Present(u.coverUrl, isUrl)
    && (u.status.None? || ParseStatus(u.status.value, otherStatuses).Some?)
    && Present(u.isbn, IsbnPattern)
    && (u.publishedDate.None? || u.publishedDate.value <= now)
    && Present(u.pageCount, PageCountOk)
    && (u.language.None? || |u.language.value| == 2)
    && Present(u.authorId, PositiveInteger)
    && Present(u.categoryId, PositiveInteger)
    && Present(u.libraryId, PositiveInteger)
    && Present(u.price, PriceOk)
  }

  /** `!data.isSellable || data.price !== undefined` */
  predicate PriceGivenIfSellable(u: BookUpdate) {
    u.isSellable != Some(true) || u.price.Some?
  }

  /** `data.status === "SOLD" ? data.isSellable === true : true` */
  predicate SoldOnlyIfSellable(u: BookUpdate) {
    u.status == Some("SOLD") ==> u.isSellable == Some(true)
  }

  /** `bookUpdateSchema.safeParse(body).success` */
  predicate BookUpdateValid(u: BookUpdate, isUrl: string -> bool, otherStatuses: set<string>, now: int) {
    BookUpdateFieldsValid(u, isUrl, otherStatuses, now) && PriceGivenIfSellable(u) && SoldOnlyIfSellable(u)
  }

  /** A book marked sellable without a price is refused. */
  lemma SellableNeedsPrice(u: BookUpdate, isUrl: string -> bool, otherStatuses: set<string>, now: int)
    requires u.isSellable == Some(true) && u.price.None?
    ensures !BookUpdateValid(u, isUrl, otherStatuses, now)
  {
  }

  /**
   * A SOLD status is accepted only together with `isSellable: true` and
   * hence with a price in [0, 1000]; an absent or false `isSellable` refuses it.
   */
  lemma SoldNeedsSellableAndPrice(u: BookUpdate, isUrl: string -> bool, otherStatuses: set<string>, now: int)
    requires u.status == Some("SOLD")
    ensures BookUpdateValid(u, isUrl, otherStatuses, now) <==>
      BookUpdateFieldsValid(u, isUrl, otherStatuses, now) && u.isSellable == Some(true) && u.price.Some?
    ensures BookUpdateValid(u, isUrl, otherStatuses, now) ==> 0.0 <= u.price.value <= 1000.0
  {
  }

  /** The numeric and length bounds an accepted update satisfies. */
  lemma AcceptedBookUpdateBounds(u: BookUpdate, isUrl: string -> bool, otherStatuses: set<string>, now: int)
    requires BookUpdateValid(u, isUrl, otherStatuses, now)
    ensures u.isbn.Some? ==>
      (|u.isbn.value| == 10 || |u.isbn.value| == 13) &&
      forall i :: 0 <= i < |u.isbn.value| ==> IsDigit(u.isbn.value[i])
    ensures u.pageCount.Some? ==> IsInteger(u.pageCount.value) && 1.0 <= u.pageCount.value <= 5000.0
    ensures u.authorId.Some? ==> PositiveInteger(u.authorId.value)
    ensures u.categoryId.Some? ==> PositiveInteger(u.categoryId.value)
    ensures u.libraryId.Some? ==> PositiveInteger(u.libraryId.value)
    ensures u.title.Some? ==> 2 <= |u.title.value| <= 100
    ensures u.summary.Some? ==> |u.summary.value| <= 1000
    ensures u.language.Some? ==> |u.language.value| == 2
    ensures u.status.Some? ==> u.status.value in {"AVAILABLE", "SOLD"} + otherStatuses
  {
    if u.isbn.Some? {
      IsbnPatternIff(u.isbn.value);
    }
  }

  /** An update whose status names no member of `BookStatus` is refused. */
  lemma BookUpdateUnknownStatusRejected(u: BookUpdate, isUrl: string -> bool, otherStatuses: set<string>, now: int)
    requires u.status.Some? && u.status.value != "AVAILABLE" && u.status.value != "SOLD"
    requires u.status.value !in otherStatuses
    ensures !BookUpdateValid(u, isUrl, otherStatuses, now)
  {
  }

  /** Unlike a user or library update, an empty book update is accepted. */
  lemma EmptyBookUpdateAccepted(isUrl: string -> bool, otherStatuses: set<string>, now: int)
    ensures BookUpdateValid(
      BookUpdate(None, None, None, None, None, None, None, None, None, None, None, None, None), isUrl, otherStatuses, now)
  {
  }
}
