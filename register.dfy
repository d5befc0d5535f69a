/**
  `POST /api/auth/register`: sign-up with a one-time code mailed earlier.
  The handler runs its checks in a fixed order and answers 400 with the
  first failing check's message; only when all pass does it consume the
  email's codes and create the user. The clock and bcrypt's `compare` and
  `hash` are inputs of the model.
 */
module Register {
  import opened Wrappers
  import opened Text

  // ---- the email pattern /^[^\s@]+@[^\s@]+\.[^\s@]+$/ ----

  /** A character of the class `[^\s@]`. */
  predicate Plain(c: char) {
    !IsJsSpace(c) && c != '@'
  }

  predicate AllPlain(s: string) {
    forall k :: 0 <= k < |s| ==> Plain(s[k])
  }

  /** The pattern matches `s` with its `@` at `i` and its `\.` at `j`. */
  ghost predicate MatchesAt(s: string, i: nat, j: nat) {
    0 < i && i + 1 < j && j + 1 < |s| && s[i] == '@' && s[j] == '.'
    && AllPlain(s[..i]) && AllPlain(s[i + 1..j]) && AllPlain(s[j + 1..])
  }

  /** The regular expression's meaning: some split of `s` matches it. */
  ghost predicate EmailPattern(s: string) {
    exists i: nat, j: nat :: MatchesAt(s, i, j)
  }

  /** A `.` with at least one character on each side of it. */
  predicate InnerDot(t: string) {
    exists j :: 0 < j < |t| - 1 && t[j] == '.'
  }

  /**
    The test the routes run, read as a check: one `@`, not first, no
    whitespace anywhere, and a `.` after the `@` with a character on each
    side.
   */
  predicate ValidEmail(s: string) {
    var i := IndexOf(s, '@');
    && 0 < i < |s|
    && Count(s, '@') == 1
    && (forall k :: 0 <= k < |s| ==> !IsJsSpace(s[k]))
    && InnerDot(s[i + 1..])
  }

  lemma {:induction false} CountConcat(a: string, b: string, c: char)
    ensures Count(a + b, c) == Count(a, c) + Count(b, c)
  {
    if |a| == 0 {
      assert a + b == b;
    } else {
      assert (a + b)[1..] == a[1..] + b;
      CountConcat(a[1..], b, c);
    }
  }

  lemma {:induction false} CountOfPlain(s: string)
    requires AllPlain(s)
    ensures Count(s, '@') == 0
  {
    if |s| > 0 {
      CountOfPlain(s[1..]);
    }
  }

  lemma {:induction false} CountPositive(s: string, c: char, k: nat)
    requires k < |s| && s[k] == c
    ensures Count(s, c) >= 1
  {
    if k > 0 {
      CountPositive(s[1..], c, k - 1);
    }
  }

  /** Two occurrences make a count of at least two. */
  lemma {:induction false} CountTwo(s: string, c: char, i: nat, k: nat)
    requires i < k < |s| && s[i] == c && s[k] == c
    ensures Count(s, c) >= 2
  {
    if i > 0 {
      CountTwo(s[1..], c, i - 1, k - 1);
    } else {
      CountPositive(s[1..], c, k - 1);
    }
  }

  lemma MatchIsValid(s: string, i: nat, j: nat)
    requires MatchesAt(s, i, j)
    ensures ValidEmail(s)
  {
    assert s == s[..i] + [s[i]] + (s[i + 1..j] + [s[j]] + s[j + 1..]);
    CountOfPlain(s[..i]);
    CountOfPlain(s[i + 1..j]);
    CountOfPlain(s[j + 1..]);
    CountConcat(s[..i], [s[i]], '@');
    CountConcat(s[i + 1..j], [s[j]], '@');
    CountConcat(s[i + 1..j] + [s[j]], s[j + 1..], '@');
    CountConcat(s[..i] + [s[i]], s[i + 1..j] + [s[j]] + s[j + 1..], '@');
    forall k | 0 <= k < i ensures s[k] != '@' {
      assert Plain(s[..i][k]);
    }
    forall k | 0 <= k < |s| ensures !IsJsSpace(s[k]) {
      if k < i {
        assert Plain(s[..i][k]);
      } else if i < k < j {
        assert Plain(s[i + 1..j][k - i - 1]);
      } else if j < k {
        assert Plain(s[j + 1..][k - j - 1]);
      }
    }
    assert s[i + 1..][j - i - 1] == '.';
  }

  lemma ValidIsMatch(s: string) returns (i: nat, j: nat)
    requires ValidEmail(s)
    ensures MatchesAt(s, i, j)
  {
    i := IndexOf(s, '@');
    var t := s[i + 1..];
    var d :| 0 < d < |t| - 1 && t[d] == '.';
    j := i + 1 + d;
    forall k | 0 <= k < |s| && k != i ensures s[k] != '@' {
      if s[k] == '@' {
        CountTwo(s, '@', i, k);
      }
    }
    var head, mid, tail := s[..i], s[i + 1..j], s[j + 1..];
    forall k | 0 <= k < |head| ensures Plain(head[k]) {
      assert head[k] == s[k];
    }
    forall k | 0 <= k < |mid| ensures Plain(mid[k]) {
      assert mid[k] == s[i + 1 + k];
    }
    forall k | 0 <= k < |tail| ensures Plain(tail[k]) {
      assert tail[k] == s[j + 1 + k];
    }
  }

  /** The check is the regular expression: it accepts exactly the strings the pattern matches. */
  lemma ValidEmailIsPattern(s: string)
    ensures ValidEmail(s) <==> EmailPattern(s)
  {
    if ValidEmail(s) {
      var i, j := ValidIsMatch(s);
    }
    if EmailPattern(s) {
      var i: nat, j: nat :| MatchesAt(s, i, j);
      MatchIsValid(s, i, j);
    }
  }

  // ---- the handler ----

  /** The parsed body; a field the client left out is `None`. */
  datatype Body = Body(email: Option<string>, password: Option<string>, code: Option<string>)

  /** A one-time code row: bcrypt hash of the code and its expiry time. */
  datatype Otp = Otp(email: string, codeHash: string, expiresAt: int)

  datatype User = User(email: string, passwordHash: string)

  /** `bcrypt.compare(code, hash)`. */
  type CodeMatcher = (string, string) -> bool

  /** `bcrypt.hash(password, 10)`, the salt fixed by the call. */
  type PasswordHasher = string -> string

  const InvalidEmail := "Invalid email address."
  const ShortPassword := "Password must be at least 8 characters."
  const CodeRequired := "OTP code is required."
  const EmailTaken := "Email already registered."
  const OtpMissing := "OTP expired or not found."
  const OtpWrong := "Invalid OTP code."
  const MinPassword := 8

  /** A present, non-empty string (truthy). */
  predicate Truthy(v: Option<string>) {
    v.Some? && v.value != ""
  }

  /** `otp.findFirst({ where: { email } })`: the first row for the email. */
  function FirstOtp(otps: seq<Otp>, email: string): (r: Option<Otp>)
    ensures r.Some? ==> r.value in otps && r.value.email == email
    ensures r.None? ==> forall o :: o in otps ==> o.email != email
  {
    if |otps| == 0 then None
    else if otps[0].email == email then Some(otps[0])
    else FirstOtp(otps[1..], email)
  }

  predicate Registered(users: seq<User>, email: string) {
    exists u :: u in users && u.email == email
  }

  /** The first check that fails, in the handler's order, or `None` when all pass. */
  function Rejection(b: Body, users: seq<User>, otps: seq<Otp>, now: int, matches: CodeMatcher): Option<string> {
    if !Truthy(b.email) || !ValidEmail(b.email.value) then Some(InvalidEmail)
    else if !Truthy(b.password) || |b.password.value| < MinPassword then Some(ShortPassword)
    else if !Truthy(b.code) then Some(CodeRequired)
    else if Registered(users, b.email.value) then Some(EmailTaken)
    else
      var otp := FirstOtp(otps, b.email.value);
      if otp.None? || otp.value.expiresAt < now then Some(OtpMissing)
      else if !matches(b.code.value, otp.value.codeHash) then Some(OtpWrong)
      else None
  }

  /** Registration goes through exactly when every check passes. */
  lemma AcceptedIffAllChecksPass(b: Body, users: seq<User>, otps: seq<Otp>, now: int, matches: CodeMatcher)
    ensures Rejection(b, users, otps, now, matches).None? <==>
              && b.email.Some? && EmailPattern(b.email.value)
              && b.password.Some? && |b.password.value| >= 8
              && Truthy(b.code)
              && (forall u :: u in users ==> u.email != b.email.value)
              && FirstOtp(otps, b.email.value).Some?
              && FirstOtp(otps, b.email.value).value.expiresAt >= now
              && matches(b.code.value, FirstOtp(otps, b.email.value).value.codeHash)
  {
    if b.email.Some? {
      ValidEmailIsPattern(b.email.value);
      if b.email.value == "" {
        assert !ValidEmail(b.email.value);
      }
    }
  }

  /**
    An email that is already registered is refused before any code is
    looked at: the answer is the same whatever the codes, the clock and the
    code matcher say.
   */
  lemma RegisteredEmailIgnoresCodes(b: Body, users: seq<User>, otps1: seq<Otp>, otps2: seq<Otp>,
                                    now1: int, now2: int, m1: CodeMatcher, m2: CodeMatcher)
    requires Truthy(b.email) && ValidEmail(b.email.value)
    requires Truthy(b.password) && |b.password.value| >= MinPassword && Truthy(b.code)
    requires Registered(users, b.email.value)
    ensures Rejection(b, users, otps1, now1, m1) == Rejection(b, users, otps2, now2, m2) == Some(EmailTaken)
  {
  }

  /** A code expiring exactly now is still accepted; only one that expired earlier is refused. */
  lemma ExpiryIsStrict(b: Body, users: seq<User>, otps: seq<Otp>, now: int, matches: CodeMatcher)
    requires Truthy(b.email) && ValidEmail(b.email.value)
    requires Truthy(b.password) && |b.password.value| >= MinPassword && Truthy(b.code)
    requires !Registered(users, b.email.value)
    requires FirstOtp(otps, b.email.value).Some?
    ensures FirstOtp(otps, b.email.value).value.expiresAt == now ==>
              Rejection(b, users, otps, now, matches) != Some(OtpMissing)
    ensures FirstOtp(otps, b.email.value).value.expiresAt < now ==>
              Rejection(b, users, otps, now, matches) == Some(OtpMissing)
  {
  }

  /** `otp.deleteMany({ where: { email } })`: the rows of other emails, in order. */
  function WithoutEmail(otps: seq<Otp>, email: string): (r: seq<Otp>)
    ensures forall o :: o in r <==> o in otps && o.email != email
    ensures |r| <= |otps|
  {
    if |otps| == 0 then []
    else (if otps[0].email == email then [] else [otps[0]]) + WithoutEmail(otps[1..], email)
  }

  datatype Reply = Rejected(detail: string) | Success

  function ReplyStatus(r: Reply): int {
    if r.Rejected? then 400 else 200
  }

  /** The `User` and `Otp` tables. */
  class AuthStore {
    var users: seq<User>
    var otps: seq<Otp>

    /** `email` is unique in `User`. */
    ghost predicate Valid()
      reads this
    {
      forall i, j :: 0 <= i < j < |users| ==> users[i].email != users[j].email
    }

    constructor(initialUsers: seq<User>, initialOtps: seq<Otp>)
      requires forall i, j :: 0 <= i < j < |initialUsers| ==> initialUsers[i].email != initialUsers[j].email
      ensures Valid() && users == initialUsers && otps == initialOtps
    {
      users := initialUsers;
      otps := initialOtps;
    }

    /**
      `POST`: a rejection changes nothing; success removes every code row of
      the email and then adds exactly one user with the hashed password.
     */
    method Register(b: Body, now: int, matches: CodeMatcher, hash: PasswordHasher) returns (reply: Reply)
      requires Valid()
      modifies this
      ensures Valid()
      ensures var r := old(Rejection(b, users, otps, now, matches));
              reply == if r.Some? then Rejected(r.value) else Success
      ensures reply.Rejected? ==> users == old(users) && otps == old(otps)
      ensures reply.Success? ==>
                && otps == WithoutEmail(old(otps), b.email.value)
                && users == old(users) + [User(b.email.value, hash(b.password.value))]
    {
      if !Truthy(b.email) || !ValidEmail(b.email.value) {
        return Rejected(InvalidEmail);
      }
      var email := b.email.value;
      if !Truthy(b.password) || |b.password.value| < MinPassword {
        return Rejected(ShortPassword);
      }
      if !Truthy(b.code) {
        return Rejected(CodeRequired);
      }
      if exists u :: u in users && u.email == email {
        return Rejected(EmailTaken);
      }
      var otp := FirstOtp(otps, email);
      if otp.None? || otp.value.expiresAt < now {
        return Rejected(OtpMissing);
      }
      if !matches(b.code.value, otp.value.codeHash) {
        return Rejected(OtpWrong);
      }
      otps := WithoutEmail(otps, email);
      users := users + [User(email, hash(b.password.value))];
      return Success;
    }
  }
}
