/**
  The two collections of app.js (the QRCode and User models, app.js:20-35),
  the session the handlers read, the responses they send, and the queries
  they run against the collections. Mongo's document ids are modelled by
  positions: a user's id is its index in the users store.
 */
module Records {
  import Js
  import QrIds

  datatype Option<T> = None | Some(value: T)

  /** A user's `_id`: its position in the users store. */
  type UserId = nat

  /** A `Date`; the handlers only store it, so it stays opaque. */
  type Time = nat

  const UserRole: string := "user"
  const AdminRole: string := "admin"

  /** A User document (app.js:30-35); `role` defaults to "user", `points` to 0. */
  datatype User = User(email: string, password: string, role: string, points: int)

  /**
    A QRCode document (app.js:20-27). `scannedBy` and `scannedAt` are null
    until the code is redeemed; `points` is None when the field is absent.
   */
  datatype QRCode = QRCode(
    codeId: string,
    generatedBy: UserId,
    generatedAt: Time,
    scannedBy: Option<UserId>,
    scannedAt: Option<Time>,
    points: Option<int>)

  /** The fields login stores in `req.session`; both are unset before login. */
  datatype Session = Session(userId: Option<UserId>, role: Option<string>)

  /** A code as the listing page receives it: the document plus the redeemer's email. */
  datatype ListedCode = ListedCode(code: QRCode, scannedByEmail: Option<string>)

  /** What a handler sends back. */
  datatype Response =
    | Status(code: nat, message: string)      // res.status(code).send(message)
    | Redirect(location: string)              // res.redirect(location)
    | ScanJson(message: string, pointsEarned: int, currentPoints: int)  // res.json(...)
    | GeneratedPage(qrCode: QRCode)           // res.render('generatedQR', ...)
    | CodesPage(qrCodes: seq<ListedCode>)     // res.render('viewQrCodes', ...)
    | Unhandled                               // the handler's promise rejects; nothing is sent

  /** The unique index on `email` (app.js:31). */
  ghost predicate UniqueEmails(users: seq<User>) {
    forall i, j :: 0 <= i < j < |users| ==> users[i].email != users[j].email
  }

  /**
    `Model.findOne({ field: value })`: the position of the first document, in
    insertion order, whose `key` equals `value`, or None when there is none.
   */
  function FindFirst<T>(docs: seq<T>, key: T -> string, value: string): (r: Option<nat>)
    ensures r.None? <==> forall i :: 0 <= i < |docs| ==> key(docs[i]) != value
    ensures r.Some? ==> r.value < |docs| && key(docs[r.value]) == value
    ensures r.Some? ==> forall i :: 0 <= i < r.value ==> key(docs[i]) != value
  {
    if docs == [] then None
    else if key(docs[0]) == value then Some(0)
    else match FindFirst(docs[1..], key, value)
      case None => None
      case Some(i) => Some(i + 1)
  }

  /** Appending a document changes the answer only when no earlier document matched. */
  lemma {:induction false} FindFirstAppend<T>(docs: seq<T>, d: T, key: T -> string, value: string)
    ensures FindFirst(docs + [d], key, value)
         == if FindFirst(docs, key, value).Some? then FindFirst(docs, key, value)
            else if key(d) == value then Some(|docs|)
            else None
  {
    if docs != [] {
      assert (docs + [d])[1..] == docs[1..] + [d];
      FindFirstAppend(docs[1..], d, key, value);
    }
  }

  /** Replacing a document by one with the same key does not change the answer. */
  lemma {:induction false} FindFirstUpdate<T>(docs: seq<T>, i: nat, d: T, key: T -> string, value: string)
    requires i < |docs| && key(d) == key(docs[i])
    ensures FindFirst(docs[i := d], key, value) == FindFirst(docs, key, value)
  {
    if i > 0 {
      assert docs[i := d][1..] == docs[1..][i - 1 := d];
      FindFirstUpdate(docs[1..], i - 1, d, key, value);
    }
  }

  function EmailOf(u: User): string {
    u.email
  }

  function CodeIdOf(c: QRCode): string {
    c.codeId
  }

  /** `User.findOne({ email })`: the first user with that email, if any. */
  function FindUserByEmail(users: seq<User>, email: string): (r: Option<UserId>)
    ensures r.None? <==> forall i :: 0 <= i < |users| ==> users[i].email != email
    ensures r.Some? ==> r.value < |users| && users[r.value].email == email
    ensures r.Some? ==> forall i :: 0 <= i < r.value ==> users[i].email != email
  {
    FindFirst(users, EmailOf, email)
  }

  /**
    `QRCodeModel.findOne({ codeId })`: the first code, in insertion order,
    with that id. Ids are not unique, so later duplicates are never found.
   */
  function FindCode(codes: seq<QRCode>, codeId: string): (r: Option<nat>)
    ensures r.None? <==> forall i :: 0 <= i < |codes| ==> codes[i].codeId != codeId
    ensures r.Some? ==> r.value < |codes| && codes[r.value].codeId == codeId
    ensures r.Some? ==> forall i :: 0 <= i < r.value ==> codes[i].codeId != codeId
  {
    FindFirst(codes, CodeIdOf, codeId)
  }

  /**
    A scan of `codeId` would redeem a code (app.js:166-175): some code has the
    id, it is not scanned yet, and no earlier code has the id.
   */
  predicate Redeemable(codes: seq<QRCode>, codeId: string)
    ensures Redeemable(codes, codeId) <==>
      exists i :: 0 <= i < |codes| && codes[i].codeId == codeId && codes[i].scannedBy.None?
        && forall j :: 0 <= j < i ==> codes[j].codeId != codeId
  {
    match FindCode(codes, codeId)
    case None => false
    case Some(i) => codes[i].scannedBy.None?
  }

  /** Issuing one more code leaves the answer for an id alone unless no earlier code had it. */
  lemma FindCodeAppend(codes: seq<QRCode>, c: QRCode, codeId: string)
    ensures FindCode(codes + [c], codeId)
         == if FindCode(codes, codeId).Some? then FindCode(codes, codeId)
            else if c.codeId == codeId then Some(|codes|)
            else None
  {
    FindFirstAppend(codes, c, CodeIdOf, codeId);
  }

  /** Changing fields of a code other than its id does not change what findOne finds. */
  lemma FindCodeUpdate(codes: seq<QRCode>, i: nat, c: QRCode, codeId: string)
    requires i < |codes| && c.codeId == codes[i].codeId
    ensures FindCode(codes[i := c], codeId) == FindCode(codes, codeId)
  {
    FindFirstUpdate(codes, i, c, CodeIdOf, codeId);
  }

  /** `Math.floor(Math.random() * 91) + 10` (app.js:115). */
  function IssuedPoints(r: real): (p: int)
    requires QrIds.IsDraw(r)
    ensures 10 <= p <= 100
  {
    QrIds.DrawIndex(r, 91) + 10
  }

  /** Every value in [10, 100] is the points of some issued code. */
  lemma EveryPointValueIssuable(p: int)
    requires 10 <= p <= 100
    ensures exists r :: QrIds.IsDraw(r) && IssuedPoints(r) == p
  {
    var r := QrIds.DrawAt(p - 10, 91);
    assert QrIds.IsDraw(r) && IssuedPoints(r) == p;
  }

  /** The document the generate handler saves (app.js:111-116, defaults app.js:24-25). */
  function NewQRCode(issuer: UserId, idDraws: seq<real>, pointsDraw: real, now: Time): (c: QRCode)
    requires |idDraws| == QrIds.IdLength && QrIds.AreDraws(idDraws) && QrIds.IsDraw(pointsDraw)
    ensures |c.codeId| == QrIds.IdLength && QrIds.OverAlphabet(c.codeId)
    ensures c.points.Some? && 10 <= c.points.value <= 100
    ensures c.generatedBy == issuer && c.generatedAt == now
    ensures c.scannedBy.None? && c.scannedAt.None?
  {
    QRCode(QrIds.IdFromDraws(idDraws), issuer, now, None, None, Some(IssuedPoints(pointsDraw)))
  }

  /** The `points` field as a JavaScript value; an absent path reads as undefined. */
  function PointsField(points: Option<int>): Js.Value {
    match points
    case None => Js.Undefined
    case Some(n) => Js.Num(n)
  }

  /**
    `qrCode?.points || 10` (app.js:184): the points a scan credits. A falsy
    field, absent or 0, earns the default 10; an issued code earns its own value.
   */
  function PointsEarned(c: QRCode): (p: int)
    ensures p != 0
    ensures c.points.Some? && c.points.value != 0 ==> p == c.points.value
    ensures c.points == None || c.points == Some(0) ==> p == 10
  {
    Js.Or(PointsField(c.points), Js.Num(10)).n
  }
}
