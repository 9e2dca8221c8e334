/** The identity normaliser: how a raw e-mail address becomes the key under
    which a user is stored (DatabaseManager.safeEmail), and the registered
    user record that derives its own key and picture name (ChatAppUser). */
module Identity {

  /** `s.replacingOccurrences(of: from, with: to)` for a one-character
      pattern: every occurrence of `from` becomes `to`, nothing else moves. */
  function ReplaceChar(s: string, from: char, to: char): (r: string)
    ensures |r| == |s|
    ensures forall i :: 0 <= i < |s| ==> r[i] == (if s[i] == from then to else s[i])
    decreases |s|
  {
    if s == [] then []
    else [if s[0] == from then to else s[0]] + ReplaceChar(s[1..], from, to)
  }

  /** What the normaliser does to one character. */
  function Escape(c: char): char
  {
    if c == '.' || c == '@' then '-' else c
  }

  /** A storage key never contains the two characters the normaliser escapes. */
  predicate IsSafe(s: string)
  {
    forall i :: 0 <= i < |s| ==> s[i] != '.' && s[i] != '@'
  }

  /** The static `DatabaseManager.safeEmail`: first every `.`, then every `@`
      is replaced by `-`. */
  function SafeEmail(emailAddress: string): (r: string)
    ensures |r| == |emailAddress|
    ensures IsSafe(r)
    ensures forall i :: 0 <= i < |emailAddress| ==> r[i] == Escape(emailAddress[i])
  {
    ReplaceChar(ReplaceChar(emailAddress, '.', '-'), '@', '-')
  }

  /** The key `userExists` looks up: the same two replacements written out
      again inline. */
  function UserExistsKey(email: string): (key: string)
    ensures IsSafe(key)
  {
    var safeEmail := ReplaceChar(email, '.', '-');
    ReplaceChar(safeEmail, '@', '-')
  }

  /** The registered user. */
  datatype ChatAppUser = ChatAppUser(firstName: string, lastName: string, emailAddress: string) {

    /** The computed property `safeEmail`, a third copy of the rule. */
    function SafeEmail(): (r: string)
      ensures IsSafe(r) && |r| == |emailAddress|
      ensures forall i :: 0 <= i < |emailAddress| ==> r[i] == Escape(emailAddress[i])
    {
      var safeEmail := ReplaceChar(emailAddress, '.', '-');
      ReplaceChar(safeEmail, '@', '-')
    }

    /** The storage name of the user's profile picture. */
    function ProfilePictureFileName(): (r: string)
      ensures |r| == |emailAddress| + |PictureSuffix|
      ensures forall i :: 0 <= i < |emailAddress| ==> r[i] == Escape(emailAddress[i])
      ensures r[|emailAddress|..] == PictureSuffix
    {
      SafeEmail() + PictureSuffix
    }
  }

  const PictureSuffix: string := "_Profile_Picture_png"

  /** Normalising twice is normalising once. */
  lemma SafeEmailIdempotent(emailAddress: string)
    ensures SafeEmail(SafeEmail(emailAddress)) == SafeEmail(emailAddress)
  {
    var once := SafeEmail(emailAddress);
    assert forall i :: 0 <= i < |once| ==> SafeEmail(once)[i] == once[i];
  }

  /** A key that is already safe is its own normal form, so every safe
      string is in the image of the normaliser. */
  lemma SafeEmailFixesSafe(s: string)
    requires IsSafe(s)
    ensures SafeEmail(s) == s
  {
    assert forall i :: 0 <= i < |s| ==> SafeEmail(s)[i] == s[i];
  }

  /** The three copies of the rule, the static function, the user's computed
      property and the inline code in `userExists`, agree on every input. */
  lemma SafeEmailCopiesAgree(user: ChatAppUser)
    ensures user.SafeEmail() == SafeEmail(user.emailAddress)
    ensures UserExistsKey(user.emailAddress) == SafeEmail(user.emailAddress)
  {
  }

  /** The normaliser is not injective: addresses that differ only in
      whether a `.`, an `@` or a `-` stands somewhere share one key. */
  lemma SafeEmailCollides()
    ensures SafeEmail("a.b") == "a-b"
    ensures SafeEmail("a@b") == "a-b"
    ensures SafeEmail("a-b") == "a-b"
  {
    SafeEmailIs("a.b", "a-b");
    SafeEmailIs("a@b", "a-b");
    SafeEmailIs("a-b", "a-b");
  }

  /** Computes the key of a concrete address character by character. */
  lemma SafeEmailIs(x: string, k: string)
    requires |x| == |k|
    requires forall i :: 0 <= i < |x| ==> Escape(x[i]) == k[i]
    ensures SafeEmail(x) == k
  {
  }

  /** Two users get the same profile picture name exactly when their
      addresses normalise to the same key. */
  lemma {:induction false} PictureNameDeterminedByKey(u: ChatAppUser, v: ChatAppUser)
    ensures u.ProfilePictureFileName() == v.ProfilePictureFileName()
        <==> SafeEmail(u.emailAddress) == SafeEmail(v.emailAddress)
  {
    SafeEmailCopiesAgree(u);
    SafeEmailCopiesAgree(v);
    var a, b := u.SafeEmail(), v.SafeEmail();
    if a + PictureSuffix == b + PictureSuffix {
      assert |a| == |b|;
      assert a == (a + PictureSuffix)[..|a|];
      assert b == (b + PictureSuffix)[..|b|];
    }
  }
}
