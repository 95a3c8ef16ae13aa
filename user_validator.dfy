/** UserValidator: name presence plus the two regular expressions for e-mail
    addresses and phone numbers, matched against the whole string. */
module UserValidator {
  import opened Wrappers
  import opened JavaText
  import opened Entities

  datatype UserError =
    | NameRequired    // "User name is required"
    | EmailRequired   // "Email is required"
    | EmailInvalid    // "Invalid email format"
    | PhoneInvalid    // "Invalid phone number format"

  function Rank(e: UserError): nat {
    match e
    case NameRequired => 0
    case EmailRequired => 1
    case EmailInvalid => 2
    case PhoneInvalid => 3
  }

  predicate InCheckOrder(es: seq<UserError>) {
    InRankOrder(es, Rank)
  }

  predicate Below(es: seq<UserError>, k: nat) {
    RanksBelow(es, Rank, k)
  }


  /** The class `[A-Za-z0-9+_.-]` of the e-mail pattern's local part. */
  predicate IsLocalChar(c: char) {
    ('A' <= c <= 'Z') || ('a' <= c <= 'z') || ('0' <= c <= '9') || c == '+' || c == '_' || c == '.' || c == '-'
  }

  /** The characters `.` does not match without DOTALL. */
  predicate IsLineTerminator(c: char) {
    c == '\n' || c == '\r' || c == '\U{0085}' || c == '\U{2028}' || c == '\U{2029}'
  }

  predicate IsDigit(c: char) {
    '0' <= c <= '9'
  }

  /** `^[A-Za-z0-9+_.-]+@(.+)$` admits `s` with its `@` at position `k`. */
  predicate EmailSplitAt(s: string, k: int) {
    1 <= k < |s| - 1 && s[k] == '@'
    && (forall i :: 0 <= i < k ==> IsLocalChar(s[i]))
    && (forall i :: k < i < |s| ==> !IsLineTerminator(s[i]))
  }

  /** The length of the longest prefix of local-part characters. */
  function LocalRun(s: string): (n: nat)
    ensures n <= |s|
    ensures forall i :: 0 <= i < n ==> IsLocalChar(s[i])
    ensures n < |s| ==> !IsLocalChar(s[n])
  {
    if s != [] && IsLocalChar(s[0]) then 1 + LocalRun(s[1..]) else 0
  }

  /** The local run ends at the first character that is not a local-part one. */
  lemma {:induction false} LocalRunStops(s: string, k: nat)
    requires k < |s| && !IsLocalChar(s[k])
    requires forall i :: 0 <= i < k ==> IsLocalChar(s[i])
    ensures LocalRun(s) == k
  {
    if k > 0 {
      assert forall i :: 0 <= i < k - 1 ==> s[1..][i] == s[i + 1];
      LocalRunStops(s[1..], k - 1);
    }
  }

  /** EMAIL_PATTERN.matcher(s).matches(), as a single left-to-right scan: the local
      run must be followed by `@` and at least one further non-terminator. */
  predicate EmailMatches(s: string) {
    var n := LocalRun(s);
    1 <= n && n + 1 < |s| && s[n] == '@' && forall i :: n < i < |s| ==> !IsLineTerminator(s[i])
  }

  /** The scan agrees with the pattern: `@` is not a local-part character, so the
      only possible split is at the end of the local run. */
  lemma EmailMatchesIff(s: string)
    ensures EmailMatches(s) <==> exists k :: EmailSplitAt(s, k)
  {
    var n := LocalRun(s);
    if EmailMatches(s) {
      assert EmailSplitAt(s, n);
    }
    if k :| EmailSplitAt(s, k) {
      LocalRunStops(s, k);
    }
  }

  /** PHONE_PATTERN `^\+?[1-9][0-9]{7,14}$`: an optional plus sign, then 8 to 15
      digits of which the first is not zero. A leading `+` can only be read as the
      sign, since the next pattern element needs a digit. */
  predicate PhoneMatches(s: string) {
    var digits := if s != [] && s[0] == '+' then s[1..] else s;
    8 <= |digits| <= 15 && '1' <= digits[0] <= '9' && forall i :: 1 <= i < |digits| ==> IsDigit(digits[i])
  }

  /** validateUser(user): errors in field order, and at most one per field. */
  method ValidateUser(user: User) returns (v: Verdict<UserError>)
    ensures v.Rejected? ==> v.errors != []
    ensures NameRequired in v.Errors() <==> IsMissing(user.name)
    ensures EmailRequired in v.Errors() <==> IsMissing(user.email)
    ensures EmailInvalid in v.Errors() <==> !IsMissing(user.email) && !EmailMatches(user.email.value)
    ensures PhoneInvalid in v.Errors() <==> !IsMissing(user.phoneNumber) && !PhoneMatches(user.phoneNumber.value)
    ensures !(EmailRequired in v.Errors() && EmailInvalid in v.Errors())
    ensures InCheckOrder(v.Errors())
  {
    var errors: seq<UserError> := [];
    if IsMissing(user.name) {
      errors := Append(errors, NameRequired, Rank);
    }
    assert Below(errors, 1) && InCheckOrder(errors);
    if IsMissing(user.email) {
      errors := Append(errors, EmailRequired, Rank);
    } else if !EmailMatches(user.email.value) {
      errors := Append(errors, EmailInvalid, Rank);
    }
    assert Below(errors, 3) && InCheckOrder(errors);
    assert NameRequired in errors <==> IsMissing(user.name);
    if !IsMissing(user.phoneNumber) && !PhoneMatches(user.phoneNumber.value) {
      errors := Append(errors, PhoneInvalid, Rank);
    }
    assert InCheckOrder(errors);
    if errors == [] {
      v := Accepted;
    } else {
      v := Rejected(errors);
    }
  }
}
