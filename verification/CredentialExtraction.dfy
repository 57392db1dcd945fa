/** `extract_credentials`: what one message may contribute to the two-step login, over an abstract label scan. */
module CredentialExtraction {
  import opened Prelude
  import opened Digits

  datatype AuthState =
    | Guest | AwaitingCredentials | AwaitingUsername | AwaitingPassword | AuthenticationFailed | Authenticated

  /**
   What the label and token scanners report about a message: the stripped text, the values after
   user-id and password labels, whether such labels occur, whether a login phrase occurs, and the bare
   tokens, all of them and those that are not login words. In the rest of the model the texts are the
   normalized ones.
   */
  datatype Scan = Scan(
    whole: string,
    usernames: seq<string>,
    passwords: seq<string>,
    sawUsername: bool,
    sawPassword: bool,
    authHint: bool,
    tokens: seq<string>,
    loginTokens: seq<string>)

  datatype Extraction = Extraction(
    isAttempt: bool, username: Option<string>, password: Option<string>, ambiguous: bool)

  const NOTHING_EXTRACTED := Extraction(false, None, None, false)

  /** The scanner reports values only after labels it saw. */
  predicate Scanned(s: Scan) {
    (s.usernames != [] ==> s.sawUsername) && (s.passwords != [] ==> s.sawPassword)
  }

  predicate StateAsksForCredentials(state: AuthState) {
    || state == AwaitingCredentials || state == AwaitingUsername
    || state == AwaitingPassword || state == AuthenticationFailed
  }

  predicate Labelled(s: Scan) {
    s.sawUsername || s.sawPassword
  }

  /** The whole text is taken as the password when exactly that is awaited. */
  predicate ReadsAsPassword(s: Scan, state: AuthState, pendingUsername: bool) {
    !Labelled(s) && state == AwaitingPassword && pendingUsername
  }

  predicate ReadsAsAwaitedUsername(s: Scan, state: AuthState, hasPendingPassword: bool) {
    !Labelled(s) && state == AwaitingUsername && hasPendingPassword
  }

  predicate ReadsAsBareUsername(s: Scan, state: AuthState, pendingUsername: bool, hasPendingPassword: bool) {
    && !Labelled(s)
    && !ReadsAsPassword(s, state, pendingUsername) && !ReadsAsAwaitedUsername(s, state, hasPendingPassword)
    && (s.authHint || state == AwaitingCredentials || state == AwaitingUsername || state == AuthenticationFailed)
  }

  function Single(values: seq<string>): Option<string> {
    if |values| == 1 then Some(values[0]) else None
  }

  /** Every value the message could mean as a user id, by the rule that applies in this state. */
  function UsernameReadings(s: Scan, state: AuthState, pendingUsername: bool, hasPendingPassword: bool): seq<string> {
    if ReadsAsAwaitedUsername(s, state, hasPendingPassword) then s.tokens
    else if ReadsAsBareUsername(s, state, pendingUsername, hasPendingPassword) then s.loginTokens
    else s.usernames
  }

  function PasswordReadings(s: Scan, state: AuthState, pendingUsername: bool): seq<string> {
    if ReadsAsPassword(s, state, pendingUsername) then [s.whole] else s.passwords
  }

  function NormalizeEach(d: DigitTable, values: seq<string>, isUsername: bool): seq<string> {
    seq(|values|, i requires 0 <= i < |values| =>
      if isUsername then NormalizeUsername(d, values[i]) else NormalizePassword(d, values[i]))
  }

  /** The message with every text as the normalization of its kind leaves it. */
  function Normalized(d: DigitTable, s: Scan): (r: Scan)
    ensures Scanned(s) ==> Scanned(r)
  {
    Scan(NormalizePassword(d, s.whole), NormalizeEach(d, s.usernames, true), NormalizeEach(d, s.passwords, false),
         s.sawUsername, s.sawPassword, s.authHint,
         NormalizeEach(d, s.tokens, true), NormalizeEach(d, s.loginTokens, true))
  }

  /**
   The branches of `extract_credentials`, with its locals reassigned. The message contributes the one
   user id it can be read as; a password only if it can be read as one and as no user id; never both.
   The value is normalized at the end, which is the same as reading the normalized message.
   */
  method ExtractCredentials(d: DigitTable, s: Scan, state: AuthState, pendingUsername: bool, hasPendingPassword: bool)
      returns (r: Extraction)
    requires Scanned(s)
    ensures r == Extract(Normalized(d, s), state, pendingUsername, hasPendingPassword)
  {
    if s.whole == "" { return NOTHING_EXTRACTED; }
    var sawUsername, sawPassword := s.sawUsername, s.sawPassword;
    var rawUsername, rawPassword := None, None;
    var ambiguous := |s.usernames| > 1 || |s.passwords| > 1;
    if |s.usernames| == 1 { rawUsername := Some(s.usernames[0]); }
    if |s.passwords| == 1 { rawPassword := Some(s.passwords[0]); }
    if !sawUsername && !sawPassword {
      if state == AwaitingPassword && pendingUsername {
        rawPassword, sawPassword := Some(s.whole), true;
      } else if state == AwaitingUsername && hasPendingPassword {
        if |s.tokens| == 1 { rawUsername, sawUsername := Some(s.tokens[0]), true; } else { ambiguous := true; }
      } else if s.authHint || state == AwaitingCredentials || state == AwaitingUsername
        || state == AuthenticationFailed {
        if |s.loginTokens| == 1 { rawUsername, sawUsername := Some(s.loginTokens[0]), true; }
        else if |s.loginTokens| > 1 { ambiguous := true; }
      }
    }
    var isAttempt := sawUsername || sawPassword || s.authHint
                  || (StateAsksForCredentials(state) && (pendingUsername || hasPendingPassword));
    var username := if rawUsername.Some? then Some(NormalizeUsername(d, rawUsername.value)) else None;
    var password := if rawPassword.Some? then Some(NormalizePassword(d, rawPassword.value)) else None;
    if username.Some? && password.Some? { password := None; }
    r := Extraction(isAttempt, username, password, ambiguous);
    NormalizationCommutes(d, s, state, pendingUsername, hasPendingPassword);
  }

  function Extract(s: Scan, state: AuthState, pendingUsername: bool, hasPendingPassword: bool): (r: Extraction)
    requires Scanned(s)
    ensures !(r.username.Some? && r.password.Some?)
  {
    if s.whole == "" then NOTHING_EXTRACTED
    else
      var usernames := UsernameReadings(s, state, pendingUsername, hasPendingPassword);
      var passwords := PasswordReadings(s, state, pendingUsername);
      var username, password := Single(usernames), Single(passwords);
      Extraction(
        Labelled(s) || s.authHint || username.Some? || password.Some?
        || (StateAsksForCredentials(state) && (pendingUsername || hasPendingPassword)),
        username,
        if username.Some? then None else password,
        |usernames| > 1 || |passwords| > 1
        || (ReadsAsAwaitedUsername(s, state, hasPendingPassword) && usernames == []))
  }

  /** The extraction with its value normalized. */
  function NormalizedValues(d: DigitTable, e: Extraction): Extraction {
    e.(username := if e.username.Some? then Some(NormalizeUsername(d, e.username.value)) else None,
       password := if e.password.Some? then Some(NormalizePassword(d, e.password.value)) else None)
  }

  lemma SingleNormalized(d: DigitTable, values: seq<string>, isUsername: bool)
    ensures var one := Single(values);
            Single(NormalizeEach(d, values, isUsername))
            == if one.None? then None
               else Some(if isUsername then NormalizeUsername(d, one.value) else NormalizePassword(d, one.value))
  {}

  lemma UsernamesNormalized(d: DigitTable, s: Scan, state: AuthState, pendingUsername: bool, hasPendingPassword: bool)
    ensures UsernameReadings(Normalized(d, s), state, pendingUsername, hasPendingPassword)
         == NormalizeEach(d, UsernameReadings(s, state, pendingUsername, hasPendingPassword), true)
  {}

  lemma PasswordsNormalized(d: DigitTable, s: Scan, state: AuthState, pendingUsername: bool)
    ensures PasswordReadings(Normalized(d, s), state, pendingUsername)
         == NormalizeEach(d, PasswordReadings(s, state, pendingUsername), false)
  {
    assert NormalizeEach(d, [s.whole], false) == [NormalizePassword(d, s.whole)];
  }

  /** Reading the normalized message is normalizing what is read. */
  lemma NormalizationCommutes(d: DigitTable, s: Scan, state: AuthState, pendingUsername: bool, hasPendingPassword: bool)
    requires Scanned(s)
    ensures Extract(Normalized(d, s), state, pendingUsername, hasPendingPassword)
         == NormalizedValues(d, Extract(s, state, pendingUsername, hasPendingPassword))
  {
    UsernamesNormalized(d, s, state, pendingUsername, hasPendingPassword);
    PasswordsNormalized(d, s, state, pendingUsername);
    SingleNormalized(d, UsernameReadings(s, state, pendingUsername, hasPendingPassword), true);
    SingleNormalized(d, PasswordReadings(s, state, pendingUsername), false);
  }

  /** Where an extracted user id and password can come from in the message. */
  predicate UsernameIn(s: Scan, value: string) {
    value in s.usernames || value in s.tokens || value in s.loginTokens
  }

  predicate PasswordIn(s: Scan, value: string) {
    value in s.passwords || value == s.whole
  }

  /**
   One message never yields both values, each value it yields is one it contains, an unlabelled
   message yields a password only while one is awaited for a known user id, and then all of it.
   */
  lemma ExtractionIsOneSided(s: Scan, state: AuthState, pendingUsername: bool, hasPendingPassword: bool)
    requires Scanned(s)
    ensures var r := Extract(s, state, pendingUsername, hasPendingPassword);
            && (r.username.Some? ==> r.password.None? && r.isAttempt && UsernameIn(s, r.username.value))
            && (r.password.Some? ==> r.username.None? && r.isAttempt && PasswordIn(s, r.password.value))
            && (r.password.Some? && !Labelled(s) ==>
                  state == AwaitingPassword && pendingUsername && r.password.value == s.whole)
            && (!r.isAttempt ==> r.username.None? && r.password.None?)
  {}

  /**
   Exactly what a message yields. With a label: the one value after user-id labels, else the one after
   password labels. Without: the whole text as the awaited password; the one token as the awaited user
   id; the one token that is no login word, after a login phrase or while credentials are awaited.
   */
  lemma ExtractionExactly(s: Scan, state: AuthState, pendingUsername: bool, hasPendingPassword: bool)
    requires Scanned(s) && s.whole != ""
    ensures var r := Extract(s, state, pendingUsername, hasPendingPassword);
            && (s.sawUsername || s.sawPassword ==>
                  && r.isAttempt
                  && (r.ambiguous <==> |s.usernames| > 1 || |s.passwords| > 1)
                  && r.username == (if |s.usernames| == 1 then Some(s.usernames[0]) else None)
                  && r.password == if |s.passwords| == 1 && |s.usernames| != 1 then Some(s.passwords[0]) else None)
            && (!s.sawUsername && !s.sawPassword && state == AwaitingPassword && pendingUsername ==>
                  r == Extraction(true, None, Some(s.whole), false))
            && (!s.sawUsername && !s.sawPassword && state == AwaitingUsername && hasPendingPassword ==>
                  && r.isAttempt && r.password.None? && (r.ambiguous <==> |s.tokens| != 1)
                  && r.username == if |s.tokens| == 1 then Some(s.tokens[0]) else None)
            && (!s.sawUsername && !s.sawPassword && !(state == AwaitingPassword && pendingUsername)
                && !(state == AwaitingUsername && hasPendingPassword) ==>
                  var asked := s.authHint || state == AwaitingCredentials || state == AwaitingUsername
                               || state == AuthenticationFailed;
                  && r.password.None? && (r.ambiguous <==> asked && |s.loginTokens| > 1)
                  && r.username == (if asked && |s.loginTokens| == 1 then Some(s.loginTokens[0]) else None)
                  && (r.isAttempt <==>
                      || s.authHint || r.username.Some?
                      || ((pendingUsername || hasPendingPassword)
                          && (state == AwaitingCredentials || state == AwaitingUsername
                              || state == AwaitingPassword || state == AuthenticationFailed))))
  {}

  /** An empty message is no attempt. */
  lemma NothingFromNothing(s: Scan, state: AuthState, pendingUsername: bool, hasPendingPassword: bool)
    requires Scanned(s) && s.whole == ""
    ensures Extract(s, state, pendingUsername, hasPendingPassword) == Extraction(false, None, None, false)
  {}
}
