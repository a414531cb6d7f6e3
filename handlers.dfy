/**
  The POST handlers of app.js and the enrichment of the listing page, over
  in-memory copies of the two collections. Each handler is a method of App
  that returns the response it sends and updates the stores in place, as the
  handler's `save()` calls do. The session is passed in (and, for login,
  returned); Math.random() results, `new Date()` and the outcome of the QR
  image encoder are parameters.
 */
module Handlers {
  import opened Records
  import QrIds
  import Js

  /**
    The `scannedByEmail` enrichment of GET /view-qr-codes (app.js:201-209):
    every code, in order, with the email of the user that scanned it when
    that user exists; a code whose redeemer is not found keeps no email.
   */
  method PopulateScannedBy(codes: seq<QRCode>, users: seq<User>) returns (listed: seq<ListedCode>)
    ensures |listed| == |codes|
    ensures forall i :: 0 <= i < |codes| ==> listed[i].code == codes[i]
    ensures forall i :: 0 <= i < |codes| ==>
      (listed[i].scannedByEmail.Some? <==> codes[i].scannedBy.Some? && codes[i].scannedBy.value < |users|)
    ensures forall i :: 0 <= i < |codes| && listed[i].scannedByEmail.Some? ==>
      listed[i].scannedByEmail.value == users[codes[i].scannedBy.value].email
  {
    listed := [];
    for i := 0 to |codes|
      invariant |listed| == i
      invariant forall k :: 0 <= k < i ==> listed[k].code == codes[k]
      invariant forall k :: 0 <= k < i ==>
        (listed[k].scannedByEmail.Some? <==> codes[k].scannedBy.Some? && codes[k].scannedBy.value < |users|)
      invariant forall k :: 0 <= k < i && listed[k].scannedByEmail.Some? ==>
        listed[k].scannedByEmail.value == users[codes[k].scannedBy.value].email
    {
      var qrCode := codes[i];
      var email: Option<string> := None;
      if qrCode.scannedBy.Some? {
        var redeemer := qrCode.scannedBy.value;
        if redeemer < |users| {
          email := Some(users[redeemer].email);
        }
      }
      listed := listed + [ListedCode(qrCode, email)];
    }
  }

  /** The application's state: the User and QRCode collections. */
  class App {
    var users: seq<User>
    var codes: seq<QRCode>

    /** The unique index on email holds. */
    ghost predicate Valid()
      reads this
    {
      UniqueEmails(users)
    }

    /** An application over collections that already hold documents. */
    constructor (users0: seq<User>, codes0: seq<QRCode>)
      requires UniqueEmails(users0)
      ensures Valid() && users == users0 && codes == codes0
    {
      users := users0;
      codes := codes0;
    }

    /**
      POST /signup (app.js:61-72). An email already in use gets 400; otherwise
      one user is appended with role "user" and 0 points. An empty email or
      password fails the schema's `required` check, so `save()` rejects and
      nothing is stored or sent.
     */
    method Signup(email: string, password: string) returns (resp: Response)
      requires Valid()
      modifies this
      ensures Valid()
      ensures codes == old(codes)
      ensures old(FindUserByEmail(users, email)).Some? ==>
        resp == Status(400, "User already exists") && users == old(users)
      ensures old(FindUserByEmail(users, email)).None? && (email == "" || password == "") ==>
        resp == Unhandled && users == old(users)
      ensures old(FindUserByEmail(users, email)).None? && email != "" && password != "" ==>
        resp == Redirect("/login") && users == old(users) + [User(email, password, UserRole, 0)]
    {
      var existingUser := FindUserByEmail(users, email);
      if existingUser.Some? {
        return Status(400, "User already exists");
      }
      if email == "" || password == "" {
        return Unhandled;
      }
      users := users + [User(email, password, UserRole, 0)];
      resp := Redirect("/login");
    }

    /**
      POST /login (app.js:80-95). Only an unknown email gets 401: the
      password test of line 84 compares a boolean with a string and never
      holds, so the password plays no part. On success the session holds
      the user's id and role, and admins are sent to /generate, others to
      /scan.
     */
    method Login(session: Session, email: string, password: string) returns (resp: Response, session': Session)
      requires Valid()
      ensures FindUserByEmail(users, email).None? ==>
        resp == Status(401, "Invalid email or password") && session' == session
      ensures FindUserByEmail(users, email).Some? ==>
        var id := FindUserByEmail(users, email).value;
        && session' == Session(Some(id), Some(users[id].role))
        && resp == Redirect(if users[id].role == AdminRole then "/generate" else "/scan")
    {
      var user := FindUserByEmail(users, email);
      if user.None? || Js.StrictEquals(Js.Not(Js.Str(users[user.value].password)), Js.Str(password)) {
        return Status(401, "Invalid email or password"), session;
      }
      var id := user.value;
      session' := Session(Some(id), Some(users[id].role));
      if users[id].role == AdminRole {
        return Redirect("/generate"), session';
      }
      resp := Redirect("/scan");
    }

    /**
      POST /generate (app.js:98-130). Without a logged-in user the
      ensureAuthenticated middleware redirects to /login; a role other than
      "admin" gets 403; in both cases no code is stored. Otherwise a new code
      is appended, whether or not its id is already in use, and the page is
      rendered, or 500 is sent if the image encoder fails.
     */
    method Generate(session: Session, idDraws: seq<real>, pointsDraw: real, now: Time, encodingOk: bool)
      returns (resp: Response)
      requires Valid()
      requires |idDraws| == QrIds.IdLength && QrIds.AreDraws(idDraws) && QrIds.IsDraw(pointsDraw)
      modifies this
      ensures Valid() && users == old(users)
      ensures session.userId.None? ==> resp == Redirect("/login") && codes == old(codes)
      ensures session.userId.Some? && session.role != Some(AdminRole) ==>
        resp == Status(403, "Only admins can generate QR codes") && codes == old(codes)
      ensures session.userId.Some? && session.role == Some(AdminRole) ==>
        var qrCode := NewQRCode(session.userId.value, idDraws, pointsDraw, now);
        && codes == old(codes) + [qrCode]
        && resp == if encodingOk then GeneratedPage(qrCode) else Status(500, "Error generating QR code")
    {
      if session.userId.None? {
        return Redirect("/login");
      }
      if session.role != Some(AdminRole) {
        return Status(403, "Only admins can generate QR codes");
      }
      var codeId := QrIds.GenerateQRCodeId(QrIds.IdLength, idDraws);
      var qrCode := QRCode(codeId, session.userId.value, now, None, None, Some(IssuedPoints(pointsDraw)));
      codes := codes + [qrCode];
      if !encodingOk {
        return Status(500, "Error generating QR code");
      }
      resp := GeneratedPage(qrCode);
    }

    /**
      POST /scan (app.js:161-190). An unknown id gets 404, then a code that
      is already scanned gets 400, and neither changes anything. Otherwise the
      first code with that id is marked with the session's user and the time,
      and that user's points grow by exactly the code's points (10 when the
      field is falsy); no other code or user changes. A code once scanned is
      never changed again, so scanning it a second time gets 400.
     */
    method Scan(session: Session, qrCodeId: string, now: Time) returns (resp: Response)
      requires Valid()
      requires Redeemable(codes, qrCodeId) ==> session.userId.Some? && session.userId.value < |users|
      modifies this
      ensures Valid()
      ensures FindCode(old(codes), qrCodeId).None? ==>
        resp == Status(404, "QR Code not found") && codes == old(codes) && users == old(users)
      ensures FindCode(old(codes), qrCodeId).Some? && !Redeemable(old(codes), qrCodeId) ==>
        resp == Status(400, "QR Code already scanned") && codes == old(codes) && users == old(users)
      ensures Redeemable(old(codes), qrCodeId) ==>
        var i, userId := FindCode(old(codes), qrCodeId).value, session.userId.value;
        var p := PointsEarned(old(codes)[i]);
        && codes == old(codes)[i := old(codes)[i].(scannedBy := Some(userId), scannedAt := Some(now))]
        && users == old(users)[userId := old(users)[userId].(points := old(users)[userId].points + p)]
        && resp == ScanJson("QR Code scanned successfully!", p, old(users)[userId].points + p)
      ensures |codes| == |old(codes)|
      ensures forall j :: 0 <= j < |codes| && old(codes)[j].scannedBy.Some? ==> codes[j] == old(codes)[j]
      ensures resp.ScanJson? ==> !Redeemable(codes, qrCodeId)
    {
      var found := FindCode(codes, qrCodeId);
      if found.None? {
        return Status(404, "QR Code not found");
      }
      var i := found.value;
      if codes[i].scannedBy.Some? {
        return Status(400, "QR Code already scanned");
      }
      var userId := session.userId.value;
      var scanned := codes[i].(scannedBy := Some(userId), scannedAt := Some(now));
      FindCodeUpdate(codes, i, scanned, qrCodeId);
      codes := codes[i := scanned];
      var points := PointsEarned(codes[i]);
      users := users[userId := users[userId].(points := users[userId].points + points)];
      resp := ScanJson("QR Code scanned successfully!", points, users[userId].points);
    }

    /**
      GET /view-qr-codes (app.js:195-216): every code with its redeemer's
      email where that user exists. It reads the stores and changes nothing.
     */
    method ViewQrCodes() returns (resp: Response)
      ensures resp.CodesPage? && |resp.qrCodes| == |codes|
      ensures forall i :: 0 <= i < |codes| ==> resp.qrCodes[i].code == codes[i]
      ensures forall i :: 0 <= i < |codes| ==>
        (resp.qrCodes[i].scannedByEmail.Some? <==> codes[i].scannedBy.Some? && codes[i].scannedBy.value < |users|)
      ensures forall i :: 0 <= i < |codes| && resp.qrCodes[i].scannedByEmail.Some? ==>
        resp.qrCodes[i].scannedByEmail.value == users[codes[i].scannedBy.value].email
    {
      var populated := PopulateScannedBy(codes, users);
      resp := CodesPage(populated);
    }
  }
}
