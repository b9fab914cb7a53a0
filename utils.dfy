/**
 * The profile validators of src/lib/utils.ts: the character-class checks
 * behind its regular expressions, the full-name check that splits on white
 * space, and the profile validation and sanitisation. `sanitizeInput`,
 * `isValidUrl` and the image-host test are passed in as functions.
 */
module Utils {
  import opened Wrappers
  import opened Text

  /** The position of the first `c` in `s`, if any. */
  function IndexOf(s: string, c: char): (r: Option<nat>)
    ensures r.None? <==> c !in s
    ensures r.Some? ==> r.value < |s| && s[r.value] == c && c !in s[..r.value]
  {
    if s == [] then None
    else if s[0] == c then Some(0)
    else
      match IndexOf(s[1..], c)
      case None => None
      case Some(i) =>
        assert s[..i + 1] == [s[0]] + s[1..][..i];
        Some(i + 1)
  }

  predicate NoSpace(s: string) {
    forall k :: 0 <= k < |s| ==> !IsSpace(s[k])
  }

  /** The position of the first white-space character of `s`, if any. */
  function FirstSpace(s: string): (r: Option<nat>)
    ensures r.None? <==> NoSpace(s)
    ensures r.Some? ==> r.value < |s| && IsSpace(s[r.value]) && NoSpace(s[..r.value])
  {
    if s == [] then None
    else if IsSpace(s[0]) then Some(0)
    else
      match FirstSpace(s[1..])
      case None => None
      case Some(i) =>
        assert s[..i + 1] == [s[0]] + s[1..][..i];
        Some(i + 1)
  }

  // ---------------------------------------------------------------- e-mail

  /** `[^\s@]` */
  predicate IsEmailChar(c: char) {
    !IsSpace(c) && c != '@'
  }

  /** `[^\s@]+` */
  predicate IsEmailPart(s: string) {
    |s| > 0 && forall k :: 0 <= k < |s| ==> IsEmailChar(s[k])
  }

  /** What follows the `@`: e-mail characters with a `.` that is neither first nor last. */
  predicate IsEmailDomain(d: string) {
    && (forall k :: 0 <= k < |d| ==> IsEmailChar(d[k]))
    && exists j :: 0 < j < |d| - 1 && d[j] == '.'
  }

  /**
   * `isValidEmail`: the text before the first `@` is a non-empty run of
   * e-mail characters, and the rest is a domain.
   */
  function IsValidEmail(email: string): (ok: bool)
    ensures ok ==> '@' in email && email[0] != '@'
  {
    match IndexOf(email, '@')
    case None => false
    case Some(at) => IsEmailPart(email[..at]) && IsEmailDomain(email[at + 1..])
  }

  /** A domain splits at any inner `.` into two e-mail parts. */
  lemma DomainSplits(d: string, j: nat)
    requires forall k :: 0 <= k < |d| ==> IsEmailChar(d[k])
    requires 0 < j < |d| - 1 && d[j] == '.'
    ensures IsEmailPart(d[..j]) && IsEmailPart(d[j + 1..])
    ensures d == d[..j] + "." + d[j + 1..]
  {
    var b, c := d[..j], d[j + 1..];
    forall k | 0 <= k < |b| ensures IsEmailChar(b[k]) {
      assert b[k] == d[k];
    }
    forall k | 0 <= k < |c| ensures IsEmailChar(c[k]) {
      assert c[k] == d[j + 1 + k];
    }
  }

  /** Every accepted address has the regular expression's form `A@B.C`. */
  lemma EmailHasForm(email: string)
    requires IsValidEmail(email)
    ensures exists a, b, c ::
              && IsEmailPart(a) && IsEmailPart(b) && IsEmailPart(c)
              && email == a + "@" + b + "." + c
  {
    var at := IndexOf(email, '@').value;
    var a, d := email[..at], email[at + 1..];
    assert IsEmailPart(a) && IsEmailDomain(d);
    var j :| 0 < j < |d| - 1 && d[j] == '.';
    DomainSplits(d, j);
    var b, c := d[..j], d[j + 1..];
    assert email == a + "@" + d;
    assert email == a + "@" + b + "." + c;
  }

  /** Every address of the form `A@B.C` is accepted. */
  lemma EmailFormIsValid(a: string, b: string, c: string)
    requires IsEmailPart(a) && IsEmailPart(b) && IsEmailPart(c)
    ensures IsValidEmail(a + "@" + b + "." + c)
  {
    var email := a + "@" + b + "." + c;
    var d := b + "." + c;
    assert email == a + "@" + d;
    assert email[|a|] == '@';
    assert email[..|a|] == a;
    var at := IndexOf(email, '@').value;
    assert at == |a|;
    assert email[..at] == a;
    assert email[at + 1..] == d;
    assert d[|b|] == '.';
    forall k | 0 <= k < |d| ensures IsEmailChar(d[k]) {
      if k < |b| {
        assert d[k] == b[k];
      } else if k > |b| {
        assert d[k] == c[k - |b| - 1];
      }
    }
  }

  // ------------------------------------------------------------------ name

  /** `[a-zA-Z\s\-']` */
  predicate IsNameChar(c: char) {
    IsAsciiLetter(c) || IsSpace(c) || c == '-' || c == '\''
  }

  /**
   * `isValidName`: only letters, white space, hyphens and apostrophes, at
   * least one character, and 2 to 50 characters once trimmed.
   */
  function IsValidName(name: string): (ok: bool)
    ensures ok ==> 2 <= |Trim(name)| <= 50
    ensures ok ==> forall k :: 0 <= k < |name| ==> IsNameChar(name[k])
  {
    && |name| > 0
    && (forall k :: 0 <= k < |name| ==> IsNameChar(name[k]))
    && 2 <= |Trim(name)| <= 50
  }

  /** Conversely, name characters only and a trimmed length of 2 to 50 make a valid name. */
  lemma NameCharsMakeValidName(name: string)
    requires forall k :: 0 <= k < |name| ==> IsNameChar(name[k])
    requires 2 <= |Trim(name)| <= 50
    ensures IsValidName(name)
  {
  }

  /** A single character outside the class rejects the name, whatever its length. */
  lemma ForeignCharRejectsName(name: string, k: nat)
    requires k < |name| && (IsDigit(name[k]) || name[k] == '<' || name[k] == '.')
    ensures !IsValidName(name)
  {
  }

  /** The trimmed form of a valid name is itself a valid name. */
  lemma TrimmedNameIsValid(name: string)
    requires IsValidName(name)
    ensures IsValidName(Trim(name))
  {
    TrimTwiceSameLength(name);
    TrimKeepsNameChars(name);
  }

  lemma TrimTwiceSameLength(s: string)
    ensures |Trim(Trim(s))| == |Trim(s)|
  {
    TrimIdempotent(s);
  }

  lemma TrimKeepsNameChars(name: string)
    requires forall k :: 0 <= k < |name| ==> IsNameChar(name[k])
    ensures forall k :: 0 <= k < |Trim(name)| ==> IsNameChar(Trim(name)[k])
  {
    var t := Trim(name);
    TrimKeepsChars(name);
    forall k | 0 <= k < |t| ensures IsNameChar(t[k]) {
      assert t[k] in t;
    }
  }

  // ------------------------------------------------------------------- bio

  /** `/<[^>]*>/.test(s)`: some `<` is followed, later on, by a `>`. */
  function HasTag(s: string): (r: bool)
    ensures r <==> exists i, j :: 0 <= i < j < |s| && s[i] == '<' && s[j] == '>'
  {
    match IndexOf(s, '<')
    case None => false
    case Some(i) =>
      TagAfterFirstOpen(s, i);
      '>' in s[i + 1..]
  }

  lemma TagAfterFirstOpen(s: string, i: nat)
    requires i < |s| && s[i] == '<' && '<' !in s[..i]
    ensures '>' in s[i + 1..] <==> exists i', j :: 0 <= i' < j < |s| && s[i'] == '<' && s[j] == '>'
  {
    if '>' in s[i + 1..] {
      var k :| 0 <= k < |s[i + 1..]| && s[i + 1..][k] == '>';
      assert s[i + 1 + k] == '>';
    }
    if exists i', j :: 0 <= i' < j < |s| && s[i'] == '<' && s[j] == '>' {
      var i', j :| 0 <= i' < j < |s| && s[i'] == '<' && s[j] == '>';
      assert s[i + 1..][j - i - 1] == '>';
    }
  }

  /** `isValidBio`: at most 200 characters and no `<` with a `>` anywhere after it. */
  function IsValidBio(bio: string): (ok: bool)
    ensures ok <==> |bio| <= 200 && !exists i, j :: 0 <= i < j < |bio| && bio[i] == '<' && bio[j] == '>'
  {
    |bio| <= 200 && !HasTag(bio)
  }

  /** Without a `<`, only the length of a bio matters. */
  lemma BioWithoutOpenBracket(bio: string)
    requires '<' !in bio
    ensures IsValidBio(bio) <==> |bio| <= 200
  {
  }

  /** A valid name, trimmed, is also an acceptable bio. */
  lemma NameIsAcceptableBio(name: string)
    requires IsValidName(name)
    ensures IsValidBio(Trim(name))
  {
    TrimmedNameIsValid(name);
    assert '<' !in Trim(name) by {
      assert !IsNameChar('<');
    }
  }

  // -------------------------------------------------------------- password

  /** `[A-Za-z\d@$!%*#?&]` */
  predicate IsPasswordChar(c: char) {
    IsAsciiLetter(c) || IsDigit(c) || c in "@$!%*#?&"
  }

  /**
   * One pass over a password: whether every character is allowed, whether
   * some character is a letter and whether some character is a digit.
   */
  function PasswordScan(s: string): (r: (bool, bool, bool))
    ensures r.0 <==> forall k :: 0 <= k < |s| ==> IsPasswordChar(s[k])
    ensures r.1 <==> exists k :: 0 <= k < |s| && IsAsciiLetter(s[k])
    ensures r.2 <==> exists k :: 0 <= k < |s| && IsDigit(s[k])
  {
    if s == [] then (true, false, false)
    else
      var rest := PasswordScan(s[1..]);
      assert forall k :: 0 < k < |s| ==> s[k] == s[1..][k - 1];
      (IsPasswordChar(s[0]) && rest.0, IsAsciiLetter(s[0]) || rest.1, IsDigit(s[0]) || rest.2)
  }

  /**
   * `isValidPassword`: at least six characters, all letters, digits or
   * `@$!%*#?&`, with at least one letter and at least one digit.
   */
  function IsValidPassword(password: string): (ok: bool)
    ensures ok <==>
      && |password| >= 6
      && (forall k :: 0 <= k < |password| ==> IsPasswordChar(password[k]))
      && (exists k :: 0 <= k < |password| && IsAsciiLetter(password[k]))
      && (exists k :: 0 <= k < |password| && IsDigit(password[k]))
  {
    var scan := PasswordScan(password);
    |password| >= 6 && scan.0 && scan.1 && scan.2
  }

  // ------------------------------------------------------------- full name

  lemma {:induction false} TrimStartKeepsLast(s: string)
    requires s != [] && !IsSpace(s[|s| - 1])
    ensures TrimStart(s) != []
    decreases |s|
  {
    if IsSpace(s[0]) {
      TrimStartKeepsLast(s[1..]);
    }
  }

  /**
   * `s.split(/\s+/)`: the pieces between maximal runs of white space, an
   * empty piece before a leading run and after a trailing one.
   */
  function SplitWs(s: string): (r: seq<string>)
    ensures |r| >= 1
    ensures forall k :: 0 <= k < |r| ==> NoSpace(r[k])
    decreases |s|
  {
    match FirstSpace(s)
    case None => [s]
    case Some(i) => [s[..i]] + SplitWs(TrimStart(s[i + 1..]))
  }

  /** A string splits into one piece, itself, exactly when it has no white space. */
  lemma SplitWsSingle(s: string)
    ensures NoSpace(s) <==> SplitWs(s) == [s]
  {
    if !NoSpace(s) {
      var i := FirstSpace(s).value;
      assert |SplitWs(s)| >= 2;
    }
  }

  /** The first piece is the text before the first white space. */
  lemma SplitWsFirstIsPrefix(s: string)
    ensures |SplitWs(s)[0]| <= |s| && SplitWs(s)[0] == s[..|SplitWs(s)[0]|]
    ensures NoSpace(SplitWs(s)[0])
  {
    match FirstSpace(s)
    case None =>
    case Some(i) => SplitWsUnfold(s, i);
  }

  /** The first piece is empty only when `s` is empty or starts with white space. */
  lemma SplitWsFirstNonEmpty(s: string)
    requires s != [] && !IsSpace(s[0])
    ensures SplitWs(s)[0] != []
  {
  }

  /** What follows the first white-space run of `s` still ends where `s` ends. */
  lemma {:induction false} RestKeepsLast(s: string, i: nat)
    requires i < |s| && IsSpace(s[i]) && !IsSpace(s[|s| - 1])
    ensures TrimStart(s[i + 1..]) != []
    ensures !IsSpace(TrimStart(s[i + 1..])[|TrimStart(s[i + 1..])| - 1])
  {
    var u := s[i + 1..];
    assert u != [] && u[|u| - 1] == s[|s| - 1];
    TrimStartKeepsLast(u);
    TrimStartIsSuffix(u);
    var t := TrimStart(u);
    assert t[|t| - 1] == u[|u| - 1];
  }

  /** The last piece is empty only when `s` is empty or ends with white space. */
  lemma {:induction false} SplitWsLastNonEmpty(s: string)
    requires s != [] && !IsSpace(s[|s| - 1])
    ensures SplitWs(s)[|SplitWs(s)| - 1] != []
    decreases |s|
  {
    match FirstSpace(s)
    case None =>
    case Some(i) =>
      var t := TrimStart(s[i + 1..]);
      RestKeepsLast(s, i);
      SplitWsLastNonEmpty(t);
      SplitWsUnfold(s, i);
      LastOfCons(s[..i], SplitWs(t));
  }

  /** The last element of a sequence with one element put in front. */
  lemma LastOfCons<T>(x: T, rest: seq<T>)
    requires rest != []
    ensures ([x] + rest)[|[x] + rest| - 1] == rest[|rest| - 1]
  {
  }

  /** One step of the split: the text before the first white space, then the split of what follows the run. */
  lemma SplitWsUnfold(s: string, i: nat)
    requires FirstSpace(s) == Some(i)
    ensures SplitWs(s) == [s[..i]] + SplitWs(TrimStart(s[i + 1..]))
  {
  }

  /** No piece between two others is empty: white-space runs are maximal. */
  lemma {:induction false} SplitWsInnerNonEmpty(s: string)
    ensures forall k :: 0 < k < |SplitWs(s)| - 1 ==> SplitWs(s)[k] != []
    decreases |s|
  {
    match FirstSpace(s)
    case None =>
    case Some(i) =>
      var t := TrimStart(s[i + 1..]);
      var rest := SplitWs(t);
      SplitWsInnerNonEmpty(t);
      assert SplitWs(s) == [s[..i]] + rest;
      if |rest| >= 2 {
        SplitWsSingle(t);
        assert t != [];
        SplitWsFirstNonEmpty(t);
      }
  }

  /** What `isValidFullName` accepts: two or more words of two or more characters, forming a valid name. */
  predicate IsFullName(fullName: string) {
    var parts := SplitWs(Trim(fullName));
    && |parts| >= 2
    && (forall k :: 0 <= k < |parts| ==> |parts[k]| >= 2)
    && IsValidName(Trim(fullName))
  }

  /**
   * `isValidFullName`: splits the trimmed name on white space, rejects
   * fewer than two parts or any part shorter than two characters, then
   * checks the trimmed name with `isValidName`.
   */
  method IsValidFullName(fullName: string) returns (ok: bool)
    ensures ok <==> IsFullName(fullName)
  {
    var trimmed := Trim(fullName);
    var parts := SplitWs(trimmed);
    if |parts| < 2 {
      return false;
    }
    for i := 0 to |parts|
      invariant forall k :: 0 <= k < i ==> |parts[k]| >= 2
    {
      if |parts[i]| < 2 {
        return false;
      }
    }
    return IsValidName(trimmed);
  }

  /** An accepted full name has white space strictly inside its trimmed form, after two characters. */
  lemma FullNameHasInnerSpace(fullName: string)
    requires IsFullName(fullName)
    ensures exists k :: 2 <= k < |Trim(fullName)| - 2 && IsSpace(Trim(fullName)[k])
  {
    var t := Trim(fullName);
    var parts := SplitWs(t);
    var i := FirstSpace(t).value;
    var u := TrimStart(t[i + 1..]);
    SplitWsUnfold(t, i);
    SplitWsFirstIsPrefix(u);
    assert parts[0] == t[..i] && parts[1] == SplitWs(u)[0];
    assert |parts[1]| <= |u| <= |t| - i - 1;
    assert 2 <= i < |t| - 2 && IsSpace(t[i]);
  }

  /** A single word is never a full name. */
  lemma OneWordIsNotFullName(fullName: string)
    requires NoSpace(Trim(fullName))
    ensures !IsFullName(fullName)
  {
    SplitWsSingle(Trim(fullName));
  }

  // --------------------------------------------------------------- profile

  /** `isValidSocialLink`: an empty link is allowed, any other must be a URL. */
  function IsValidSocialLink(link: string, isValidUrl: string -> bool): (ok: bool)
    ensures link == "" ==> ok
    ensures link != "" ==> (ok <==> isValidUrl(link))
  {
    if link == "" then true else isValidUrl(link)
  }

  /**
   * `isValidProfileImage`: an empty URL is allowed; any other must be a URL
   * that `looksLikeImage` accepts (the extension and image-host test).
   */
  function IsValidProfileImage(imageUrl: string, isValidUrl: string -> bool, looksLikeImage: string -> bool): (ok: bool)
    ensures imageUrl == "" ==> ok
    ensures ok && imageUrl != "" ==> isValidUrl(imageUrl)
  {
    if imageUrl == "" then true
    else if !isValidUrl(imageUrl) then false
    else looksLikeImage(imageUrl)
  }

  /**
   * The profile fields the validators read; an absent field and an empty
   * one are both `""`, and absent `socialLinks` is `None`.
   */
  datatype Profile = Profile(
    fullName: string,
    bio: string,
    profileImage: string,
    socialLinks: Option<map<string, string>>)

  const Platforms: seq<string> := ["linkedin", "twitter", "instagram", "youtube", "other"]

  const NameMessage := "Full name must contain only letters, spaces, hyphens, and apostrophes, and be between 2-50 characters"
  const BioMessage := "Bio must be less than 200 characters and not contain HTML tags"
  const ImageMessage := "Profile image URL must be a valid image URL"

  function LinkMessage(platform: string): string {
    platform + " URL must be a valid URL"
  }

  /** `socialLinks[platform]`, empty when missing. */
  function Link(links: map<string, string>, platform: string): string {
    if platform in links then links[platform] else ""
  }

  /** The messages for the checked fields other than the social links, in order. */
  function FieldErrors(p: Profile, isValidUrl: string -> bool, looksLikeImage: string -> bool): seq<string> {
    (if p.fullName != "" && !IsValidName(p.fullName) then [NameMessage] else [])
    + (if p.bio != "" && !IsValidBio(p.bio) then [BioMessage] else [])
    + (if p.profileImage != "" && !IsValidProfileImage(p.profileImage, isValidUrl, looksLikeImage) then [ImageMessage] else [])
  }

  /** The messages for the links of `platforms` that are present and not URLs, in order. */
  function LinkErrors(links: map<string, string>, platforms: seq<string>, isValidUrl: string -> bool): seq<string> {
    if platforms == [] then []
    else
      var last := platforms[|platforms| - 1];
      var link := Link(links, last);
      LinkErrors(links, platforms[..|platforms| - 1], isValidUrl)
      + (if link != "" && !IsValidSocialLink(link, isValidUrl) then [LinkMessage(last)] else [])
  }

  /** No link message at all exactly when every listed platform's link passes, and at most one per platform. */
  lemma {:induction false} LinkErrorsFacts(links: map<string, string>, platforms: seq<string>, isValidUrl: string -> bool)
    ensures |LinkErrors(links, platforms, isValidUrl)| <= |platforms|
    ensures LinkErrors(links, platforms, isValidUrl) == [] <==>
      forall k :: 0 <= k < |platforms| ==> IsValidSocialLink(Link(links, platforms[k]), isValidUrl)
  {
    if platforms != [] {
      var init := platforms[..|platforms| - 1];
      LinkErrorsFacts(links, init, isValidUrl);
      assert forall k :: 0 <= k < |init| ==> init[k] == platforms[k];
    }
  }

  /** Each platform's message names the platform: different platforms give different messages. */
  lemma LinkMessageInjective(a: string, b: string)
    requires LinkMessage(a) == LinkMessage(b)
    ensures a == b
  {
    assert a == LinkMessage(a)[..|a|];
    assert b == LinkMessage(b)[..|b|];
  }

  /**
   * A platform's message is among the link errors exactly when the platform
   * is listed and its link fails `isValidSocialLink`.
   */
  lemma {:induction false} LinkMessageIff(links: map<string, string>, platforms: seq<string>,
                                          isValidUrl: string -> bool, q: string)
    ensures LinkMessage(q) in LinkErrors(links, platforms, isValidUrl) <==>
              q in platforms && !IsValidSocialLink(Link(links, q), isValidUrl)
  {
    if platforms != [] {
      var init := platforms[..|platforms| - 1];
      var last := platforms[|platforms| - 1];
      LinkMessageIff(links, init, isValidUrl, q);
      assert platforms == init + [last];
      if LinkMessage(q) == LinkMessage(last) {
        LinkMessageInjective(q, last);
      }
    }
  }

  /** Every message `validateUserProfile` collects, in the order it pushes them. */
  function ProfileErrors(p: Profile, isValidUrl: string -> bool, looksLikeImage: string -> bool): seq<string> {
    FieldErrors(p, isValidUrl, looksLikeImage)
    + (if p.socialLinks.Some? then LinkErrors(p.socialLinks.value, Platforms, isValidUrl) else [])
  }

  /**
   * A profile has no errors exactly when each present field passes its
   * check and, when links are given, every platform's link passes; there
   * are at most eight messages.
   */
  lemma ProfileValidIff(p: Profile, isValidUrl: string -> bool, looksLikeImage: string -> bool)
    ensures |ProfileErrors(p, isValidUrl, looksLikeImage)| <= 8
    ensures ProfileErrors(p, isValidUrl, looksLikeImage) == [] <==>
      && (p.fullName == "" || IsValidName(p.fullName))
      && (p.bio == "" || IsValidBio(p.bio))
      && IsValidProfileImage(p.profileImage, isValidUrl, looksLikeImage)
      && (p.socialLinks.Some? ==>
            forall k :: 0 <= k < |Platforms| ==> IsValidSocialLink(Link(p.socialLinks.value, Platforms[k]), isValidUrl))
  {
    if p.socialLinks.Some? {
      LinkErrorsFacts(p.socialLinks.value, Platforms, isValidUrl);
    }
  }

  /** One more platform adds at most that platform's message at the end. */
  lemma LinkErrorsStep(links: map<string, string>, i: nat, isValidUrl: string -> bool)
    requires i < |Platforms|
    ensures LinkErrors(links, Platforms[..i + 1], isValidUrl)
      == LinkErrors(links, Platforms[..i], isValidUrl)
         + (if Link(links, Platforms[i]) != "" && !IsValidSocialLink(Link(links, Platforms[i]), isValidUrl)
            then [LinkMessage(Platforms[i])] else [])
  {
    assert Platforms[..i + 1][..i] == Platforms[..i];
  }

  /** The platform loop of `validateUserProfile`, pushing onto `errors`. */
  method PushLinkErrors(links: map<string, string>, isValidUrl: string -> bool, errors0: seq<string>)
    returns (errors: seq<string>)
    ensures errors == errors0 + LinkErrors(links, Platforms, isValidUrl)
  {
    errors := errors0;
    for i := 0 to |Platforms|
      invariant errors == errors0 + LinkErrors(links, Platforms[..i], isValidUrl)
    {
      var link := Link(links, Platforms[i]);
      LinkErrorsStep(links, i, isValidUrl);
      if link != "" && !IsValidSocialLink(link, isValidUrl) {
        errors := errors + [LinkMessage(Platforms[i])];
      }
    }
    assert Platforms[..|Platforms|] == Platforms;
  }

  /**
   * `validateUserProfile`: checks the name, bio and image when present,
   * then each platform's link in order, pushing one message per failure.
   */
  method ValidateUserProfile(p: Profile, isValidUrl: string -> bool, looksLikeImage: string -> bool)
    returns (isValid: bool, errors: seq<string>)
    ensures errors == ProfileErrors(p, isValidUrl, looksLikeImage)
    ensures isValid <==> errors == []
  {
    errors := [];
    if p.fullName != "" && !IsValidName(p.fullName) {
      errors := errors + [NameMessage];
    }
    if p.bio != "" && !IsValidBio(p.bio) {
      errors := errors + [BioMessage];
    }
    if p.profileImage != "" && !IsValidProfileImage(p.profileImage, isValidUrl, looksLikeImage) {
      errors := errors + [ImageMessage];
    }
    assert errors == FieldErrors(p, isValidUrl, looksLikeImage);
    if p.socialLinks.Some? {
      errors := PushLinkErrors(p.socialLinks.value, isValidUrl, errors);
    }
    isValid := |errors| == 0;
  }

  /** The result of `sanitizeProfileData`: only the fields that were set. */
  datatype SanitizedProfile = SanitizedProfile(
    fullName: Option<string>,
    bio: Option<string>,
    profileImage: Option<string>,
    socialLinks: Option<map<string, string>>)

  const EmptySanitized := SanitizedProfile(None, None, None, None)

  /** The non-empty links of the five platforms; any other key is dropped. */
  function KeptLinks(links: map<string, string>): (kept: map<string, string>)
    ensures forall q :: q in kept <==> q in Platforms && Link(links, q) != ""
    ensures forall q :: q in kept ==> kept[q] == Link(links, q)
  {
    map q | q in Platforms && q in links && links[q] != "" :: links[q]
  }

  /** Keeping the links twice keeps the same links. */
  lemma KeptLinksIdempotent(links: map<string, string>)
    ensures KeptLinks(KeptLinks(links)) == KeptLinks(links)
  {
  }

  /**
   * `sanitizeProfileData`: copies each set field, the name and bio through
   * `sanitize`, the image as is, and of the links only the five platforms'
   * non-empty ones.
   */
  method SanitizeProfileData(p: Profile, sanitize: string -> string) returns (r: SanitizedProfile)
    ensures r.fullName == (if p.fullName != "" then Some(sanitize(p.fullName)) else None)
    ensures r.bio == (if p.bio != "" then Some(sanitize(p.bio)) else None)
    ensures r.profileImage == (if p.profileImage != "" then Some(p.profileImage) else None)
    ensures r.socialLinks.Some? <==> p.socialLinks.Some?
    ensures r.socialLinks.Some? ==> r.socialLinks.value == KeptLinks(p.socialLinks.value)
  {
    r := EmptySanitized;
    if p.fullName != "" {
      r := r.(fullName := Some(sanitize(p.fullName)));
    }
    if p.bio != "" {
      r := r.(bio := Some(sanitize(p.bio)));
    }
    if p.profileImage != "" {
      r := r.(profileImage := Some(p.profileImage));
    }
    if p.socialLinks.Some? {
      var links := p.socialLinks.value;
      var kept: map<string, string> := map[];
      for i := 0 to |Platforms|
        invariant forall q :: q in kept <==> q in Platforms[..i] && Link(links, q) != ""
        invariant forall q :: q in kept ==> kept[q] == Link(links, q)
      {
        if Link(links, Platforms[i]) != "" {
          kept := kept[Platforms[i] := links[Platforms[i]]];
        }
        assert Platforms[..i + 1] == Platforms[..i] + [Platforms[i]];
      }
      assert Platforms[..|Platforms|] == Platforms;
      r := r.(socialLinks := Some(kept));
    }
  }

  /**
   * `validateAndSanitizeProfile`: an invalid profile yields its errors and
   * no data; a valid one yields its sanitised data and no errors.
   */
  method ValidateAndSanitizeProfile(p: Profile, isValidUrl: string -> bool, looksLikeImage: string -> bool,
                                    sanitize: string -> string)
    returns (isValid: bool, sanitizedData: SanitizedProfile, errors: seq<string>)
    ensures isValid <==> ProfileErrors(p, isValidUrl, looksLikeImage) == []
    ensures !isValid ==> sanitizedData == EmptySanitized && errors == ProfileErrors(p, isValidUrl, looksLikeImage)
    ensures isValid ==> errors == []
    ensures isValid ==> sanitizedData.fullName == (if p.fullName != "" then Some(sanitize(p.fullName)) else None)
    ensures isValid ==> sanitizedData.bio == (if p.bio != "" then Some(sanitize(p.bio)) else None)
    ensures isValid ==> sanitizedData.profileImage == (if p.profileImage != "" then Some(p.profileImage) else None)
    ensures isValid ==> (sanitizedData.socialLinks.Some? <==> p.socialLinks.Some?)
    ensures isValid && p.bio != "" ==> IsValidBio(p.bio)
    ensures isValid ==> IsValidProfileImage(p.profileImage, isValidUrl, looksLikeImage)
    ensures isValid && p.socialLinks.Some? ==>
      && sanitizedData.socialLinks == Some(KeptLinks(p.socialLinks.value))
      && forall q :: q in KeptLinks(p.socialLinks.value) ==> isValidUrl(KeptLinks(p.socialLinks.value)[q])
  {
    var valid, found := ValidateUserProfile(p, isValidUrl, looksLikeImage);
    if !valid {
      return false, EmptySanitized, found;
    }
    ProfileValidIff(p, isValidUrl, looksLikeImage);
    sanitizedData := SanitizeProfileData(p, sanitize);
    return true, sanitizedData, [];
  }
}
