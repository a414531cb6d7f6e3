/**
  Sequences of requests, proved from the handlers' contracts alone: what a
  client of the application can rely on across several calls.
 */
module Scenarios {
  import opened Records
  import opened Handlers
  import QrIds

  /**
    A fresh signup followed by a login with the same email succeeds and the
    session carries the stored role "user", whatever password is typed at
    login.
   */
  method SignupThenLogin(app: App, email: string, password: string, loginPassword: string, session: Session)
    returns (signedUp: Response, loggedIn: Response, session': Session)
    requires app.Valid() && email != "" && password != ""
    requires FindUserByEmail(app.users, email).None?
    modifies app
    ensures app.Valid()
    ensures signedUp == Redirect("/login")
    ensures loggedIn == Redirect("/scan")
    ensures session' == Session(Some(|old(app.users)|), Some(UserRole))
  {
    signedUp := app.Signup(email, password);
    assert app.users[|old(app.users)|].email == email;
    loggedIn, session' := app.Login(session, email, loginPassword);
  }

  /** Signing up twice with one email fails the second time and stores one user. */
  method SignupTwice(app: App, email: string, password: string, password2: string)
    returns (first: Response, second: Response)
    requires app.Valid() && email != "" && password != ""
    requires FindUserByEmail(app.users, email).None?
    modifies app
    ensures app.Valid()
    ensures first == Redirect("/login")
    ensures second == Status(400, "User already exists")
    ensures app.users == old(app.users) + [User(email, password, UserRole, 0)]
  {
    first := app.Signup(email, password);
    assert app.users[|old(app.users)|].email == email;
    second := app.Signup(email, password2);
  }

  /**
    An admin issues a code whose id no earlier code has; a user scans it and
    earns exactly its points, between 10 and 100; a second scan, by anyone,
    gets 400 and changes nothing.
   */
  method IssueThenScanTwice(
    app: App, admin: Session, user: UserId, other: Session,
    idDraws: seq<real>, pointsDraw: real, t0: Time, t1: Time, t2: Time)
    returns (issued: Response, first: Response, second: Response)
    requires app.Valid()
    requires admin.userId.Some? && admin.role == Some(AdminRole)
    requires user < |app.users|
    requires |idDraws| == QrIds.IdLength && QrIds.AreDraws(idDraws) && QrIds.IsDraw(pointsDraw)
    requires FindCode(app.codes, QrIds.IdFromDraws(idDraws)).None?
    modifies app
    ensures app.Valid()
    ensures issued.GeneratedPage?
    ensures var p := IssuedPoints(pointsDraw);
      first == ScanJson("QR Code scanned successfully!", p, old(app.users[user].points) + p)
    ensures 10 <= first.pointsEarned <= 100
    ensures second == Status(400, "QR Code already scanned")
    ensures |app.users| == |old(app.users)|
    ensures app.users[user].points == old(app.users[user].points) + first.pointsEarned
    ensures |app.codes| == |old(app.codes)| + 1
    ensures app.codes[|old(app.codes)|].codeId == QrIds.IdFromDraws(idDraws)
    ensures app.codes[|old(app.codes)|].scannedBy == Some(user)
  {
    issued := app.Generate(admin, idDraws, pointsDraw, t0, true);
    var qrCode := issued.qrCode;
    FindCodeAppend(old(app.codes), qrCode, qrCode.codeId);
    first := app.Scan(Session(Some(user), Some(UserRole)), qrCode.codeId, t1);
    assert app.codes[|old(app.codes)|].codeId == qrCode.codeId;
    second := app.Scan(other, qrCode.codeId, t2);
  }

  /**
    Issuing a code whose id an earlier, already scanned code has: the new
    code can never be redeemed, because a scan finds the earlier one first.
   */
  method DuplicateIdShadowed(app: App, admin: Session, user: Session,
    idDraws: seq<real>, pointsDraw: real, t0: Time, t1: Time)
    returns (issued: Response, scanned: Response)
    requires app.Valid()
    requires admin.userId.Some? && admin.role == Some(AdminRole)
    requires |idDraws| == QrIds.IdLength && QrIds.AreDraws(idDraws) && QrIds.IsDraw(pointsDraw)
    requires FindCode(app.codes, QrIds.IdFromDraws(idDraws)).Some?
    requires !Redeemable(app.codes, QrIds.IdFromDraws(idDraws))
    modifies app
    ensures scanned == Status(400, "QR Code already scanned")
    ensures |app.codes| == |old(app.codes)| + 1
    ensures app.codes[|app.codes| - 1].scannedBy.None?
  {
    issued := app.Generate(admin, idDraws, pointsDraw, t0, true);
    var qrCode := issued.qrCode;
    FindCodeAppend(old(app.codes), qrCode, qrCode.codeId);
    scanned := app.Scan(user, qrCode.codeId, t1);
  }

  /** Where the characters of "AB12cd" sit in the alphabet. */
  lemma AB12cdPositions()
    ensures QrIds.Alphabet[0] == 'A' && QrIds.Alphabet[1] == 'B'
    ensures QrIds.Alphabet[50] == '1' && QrIds.Alphabet[51] == '2'
    ensures QrIds.Alphabet[27] == 'c' && QrIds.Alphabet[28] == 'd'
  {
    QrIds.AlphabetRuns();
  }

  /** "AB12cd" is an identifier generateQRCodeId(6) can return. */
  lemma AB12cdIsPossible()
    ensures |"AB12cd"| == QrIds.IdLength && QrIds.OverAlphabet("AB12cd")
    ensures QrIds.IdFromDraws(QrIds.DrawsFor("AB12cd")) == "AB12cd"
  {
    AB12cdPositions();
    var id := "AB12cd";
    assert id[0] in QrIds.Alphabet && id[1] in QrIds.Alphabet && id[2] in QrIds.Alphabet;
    assert id[3] in QrIds.Alphabet && id[4] in QrIds.Alphabet && id[5] in QrIds.Alphabet;
    QrIds.DrawsForProduce(id);
  }

  /**
    An admin issues code AB12cd worth 42 points; a user submits AB12cd and is
    told it earned 42 points, with a total 42 above the old one; submitting
    AB12cd again gets 400.
   */
  method IssueAB12cdWorth42(app: App, admin: Session, user: UserId, t0: Time, t1: Time, t2: Time)
    returns (first: Response, second: Response)
    requires app.Valid()
    requires admin.userId.Some? && admin.role == Some(AdminRole)
    requires user < |app.users|
    requires FindCode(app.codes, "AB12cd").None?
    modifies app
    ensures first == ScanJson("QR Code scanned successfully!", 42, old(app.users[user].points) + 42)
    ensures second == Status(400, "QR Code already scanned")
  {
    AB12cdIsPossible();
    var pointsDraw := QrIds.DrawAt(32, 91);
    var session := Session(Some(user), Some(UserRole));
    var issued;
    issued, first, second := IssueThenScanTwice(
      app, admin, user, session, QrIds.DrawsFor("AB12cd"), pointsDraw, t0, t1, t2);
  }
}
