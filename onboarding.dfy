/** The request checks of the onboarding handlers: `initiateOnboarding`'s required
    fields, email pattern and normalisation, the saved-progress steps, the document
    upload checks and the document-review request. */
module Onboarding {
  import opened Wrappers
  import Text
  import Upload

  /** A piece of an email address under `[^\s@]+`: non-empty, no white space, no `@`. */
  predicate Part(s: string) {
    s != [] && forall k :: 0 <= k < |s| ==> !Text.IsSpace(s[k]) && s[k] != '@'
  }

  /** `s` splits as `part@part.part` with the `@` at `a` and the `.` at `j`. */
  predicate SplitsAt(s: string, a: int, j: int) {
    && 0 <= a < j < |s|
    && s[a] == '@' && s[j] == '.'
    && Part(s[..a]) && Part(s[a + 1..j]) && Part(s[j + 1..])
  }

  /** `/^[^\s@]+@[^\s@]+\.[^\s@]+$/`: some way of splitting `s` matches. */
  predicate EmailShape(s: string) {
    exists a, j | 0 <= a < j < |s| :: SplitsAt(s, a, j)
  }

  function IndexOf(s: string, c: char): (r: Option<nat>)
    ensures r.Some? ==> r.value < |s| && s[r.value] == c && c !in s[..r.value]
    ensures r.None? <==> c !in s
  {
    if s == [] then None
    else if s[0] == c then Some(0)
    else
      var r := IndexOf(s[1..], c);
      assert s == [s[0]] + s[1..];
      if r.Some? then
        assert s[..r.value + 1] == [s[0]] + s[1..][..r.value];
        Some(r.value + 1)
      else None
  }

  /** The same pattern read off directly: no white space, exactly one `@`, not first,
      and a `.` strictly inside what follows it. */
  predicate EmailMatches(s: string) {
    && Text.NoSpace(s)
    && match IndexOf(s, '@')
       case None => false
       case Some(a) =>
         var domain := s[a + 1..];
         && a > 0 && '@' !in domain
         && |domain| >= 3 && '.' in domain[1..|domain| - 1]
  }

  /** The direct reading is exactly the pattern. */
  lemma EmailMatchesIffShape(s: string)
    ensures EmailMatches(s) <==> EmailShape(s)
  {
    if EmailMatches(s) {
      MatchesGivesShape(s);
    }
    if EmailShape(s) {
      var a, j :| 0 <= a < j < |s| && SplitsAt(s, a, j);
      ShapeGivesMatches(s, a, j);
    }
  }

  lemma MatchesGivesShape(s: string)
    requires EmailMatches(s)
    ensures EmailShape(s)
  {
    var a := IndexOf(s, '@').value;
    var domain := s[a + 1..];
    var d :| 1 <= d < |domain| - 1 && domain[d] == '.';
    var j := a + 1 + d;
    assert s[a + 1..j] == domain[..d];
    assert s[j + 1..] == domain[d + 1..];
    assert forall k :: 0 <= k < |domain| ==> domain[k] != '@';
    assert SplitsAt(s, a, j);
  }

  lemma ShapeNoSpace(s: string, a: int, j: int)
    requires SplitsAt(s, a, j)
    ensures Text.NoSpace(s)
  {
    forall k | 0 <= k < |s| ensures !Text.IsSpace(s[k]) {
      if k < a { assert s[k] == s[..a][k]; }
      else if a < k < j { assert s[k] == s[a + 1..j][k - a - 1]; }
      else if j < k { assert s[k] == s[j + 1..][k - j - 1]; }
    }
  }

  lemma ShapeGivesMatches(s: string, a: int, j: int)
    requires SplitsAt(s, a, j)
    ensures EmailMatches(s)
  {
    ShapeNoSpace(s, a, j);
    assert '@' !in s[..a];
    assert IndexOf(s, '@') == Some(a);
    var domain := s[a + 1..];
    assert domain == s[a + 1..j] + [s[j]] + s[j + 1..];
    assert '@' !in domain;
    assert domain[1..|domain| - 1][j - a - 2] == '.';
  }

  /** Lower-casing keeps the pattern: `@`, `.` and white space are not letters. */
  lemma LowerKeepsShape(s: string)
    requires EmailShape(s)
    ensures EmailShape(Text.ToLower(s))
  {
    var a, j :| 0 <= a < j < |s| && SplitsAt(s, a, j);
    var t := Text.ToLower(s);
    assert t[..a] == Text.ToLower(s[..a]);
    assert t[a + 1..j] == Text.ToLower(s[a + 1..j]);
    assert t[j + 1..] == Text.ToLower(s[j + 1..]);
    LowerPart(s[..a]);
    LowerPart(s[a + 1..j]);
    LowerPart(s[j + 1..]);
    assert SplitsAt(t, a, j);
  }

  /** Lower-casing a piece of an address leaves a piece. */
  lemma LowerPart(u: string)
    requires Part(u)
    ensures Part(Text.ToLower(u))
  {
    forall k | 0 <= k < |u|
      ensures !Text.IsSpace(Text.ToLower(u)[k]) && Text.ToLower(u)[k] != '@'
    {
      LowerNotSpace(u[k]);
    }
  }

  /** A character that is not white space does not lower-case to white space. */
  lemma LowerNotSpace(c: char)
    requires !Text.IsSpace(c) && c != '@'
    ensures !Text.IsSpace(Text.LowerChar(c)) && Text.LowerChar(c) != '@'
  {
    if 'A' <= c <= 'Z' {
      assert 'a' <= Text.LowerChar(c) <= 'z';
    }
  }

  datatype Onboard = Onboard(email: string, name: string)

  /** `initiateOnboarding`: any validator errors (the route's rules, outside this
      handler) are reported first, then missing fields, then a malformed email.
      Otherwise the email is passed on lower-cased and trimmed and the name trimmed. */
  function InitiateOnboarding(validationErrors: seq<string>, email: Option<string>, name: Option<string>)
    : (r: Result<Onboard>)
    ensures validationErrors != [] ==> r == Err(Http(400, "Validation Error"))
    ensures validationErrors == [] && (!Present(email) || !Present(name)) ==>
              r == Err(Http(400, "Required fields missing or invalid"))
    ensures validationErrors == [] && Present(email) && Present(name) ==>
              (r == Err(Http(400, "Invalid email format")) <==> !EmailShape(email.value))
    ensures validationErrors == [] && Present(email) && Present(name) && EmailShape(email.value) ==> r.Ok?
    ensures r.Ok? ==> && EmailShape(email.value)
                      && r.value == Onboard(Text.Trim(Text.ToLower(email.value)), Text.Trim(name.value))
                      && EmailShape(r.value.email) && r.value.email == Text.ToLower(email.value)
  {
    EmailMatchesIffShape(if email.Some? then email.value else "");
    if validationErrors != [] then Err(Http(400, "Validation Error"))
    else if !Present(email) || !Present(name) then Err(Http(400, "Required fields missing or invalid"))
    else if !EmailMatches(email.value) then Err(Http(400, "Invalid email format"))
    else
      NormalisedEmail(email.value);
      Ok(Onboard(Text.Trim(Text.ToLower(email.value)), Text.Trim(name.value)))
  }

  /** A matching email has no white space, so trimming after lower-casing changes
      nothing and the result still matches. */
  lemma NormalisedEmail(s: string)
    requires EmailShape(s)
    ensures Text.Trim(Text.ToLower(s)) == Text.ToLower(s)
    ensures EmailShape(Text.ToLower(s))
  {
    LowerKeepsShape(s);
    EmailMatchesIffShape(Text.ToLower(s));
    Text.TrimNoSpace(Text.ToLower(s));
  }

  lemma TrimBlank()
    ensures Text.Trim("  ") == ""
  {
    assert forall k :: 0 <= k < |"  "| ==> "  "[k] == ' ';
    Text.TrimAllSpace("  ");
  }

  /** A name of spaces passes `!name` and is passed on empty. */
  lemma BlankNamePassesEmpty(email: string)
    requires EmailShape(email)
    ensures var r := InitiateOnboarding([], Some(email), Some("  "));
      r.Ok? && r.value.name == ""
  {
    TrimBlank();
  }

  const ValidSteps: seq<string> := ["welcome", "personal_details", "specializations", "documents"]

  /** `saveOnboardingProgress`: a step and truthy data are required, and the step
      must be one of the four. */
  function SaveProgressGuard(step: Option<string>, data: Js): (f: Option<Failure>)
    ensures f == Some(Http(400, "Step and data are required")) <==> !Present(step) || !Truthy(data)
    ensures f.None? <==> Present(step) && Truthy(data) && step.value in ValidSteps
    ensures f.Some? && f != Some(Http(400, "Step and data are required")) ==>
              f == Some(Http(400, "Step must be one of: welcome, personal_details, specializations, documents"))
  {
    if !Present(step) || !Truthy(data) then Some(Http(400, "Step and data are required"))
    else if step.value !in ValidSteps then
      Some(Http(400, "Step must be one of: welcome, personal_details, specializations, documents"))
    else None
  }

  const DocumentTypes: seq<string> := ["id_proof", "address_proof", "professional_certificate"]

  /** The uploaded file as multer hands it over. */
  datatype UploadedFile = UploadedFile(mimetype: string, size: nat)

  /** `uploadDocument`'s checks, in order: the document type, a file, its MIME type. */
  function UploadGuard(documentType: Option<string>, file: Option<UploadedFile>): (f: Option<Failure>)
    ensures f == Some(Http(400, "Invalid document type")) <==> !Present(documentType) || documentType.value !in DocumentTypes
    ensures f == Some(Http(400, "File is required")) <==>
              Present(documentType) && documentType.value in DocumentTypes && file.None?
    ensures f == Some(Http(400, "Invalid file type")) <==>
              Present(documentType) && documentType.value in DocumentTypes && file.Some? && file.value.mimetype !in Upload.AllowedTypes
    ensures f.None? <==> Present(documentType) && documentType.value in DocumentTypes && file.Some? && file.value.mimetype in Upload.AllowedTypes
  {
    if !Present(documentType) || documentType.value !in DocumentTypes then Some(Http(400, "Invalid document type"))
    else if file.None? then Some(Http(400, "File is required"))
    else if file.value.mimetype !in Upload.AllowedTypes then Some(Http(400, "Invalid file type"))
    else None
  }

  /** Every file the handler accepts is one the middleware's filter accepts with a
      single callback: the two use the same three types. */
  lemma UploadGuardAgreesWithFilter(documentType: Option<string>, file: Option<UploadedFile>)
    requires UploadGuard(documentType, file).None?
    ensures Upload.FileFilter(file.value.mimetype) == [Upload.Accepted]
    ensures Upload.FileFilterIntended(file.value.mimetype) == [Upload.Accepted]
  {
  }

  /** `verifyDocument`: both ids are required. */
  function VerifyDocumentGuard(professionalId: Option<string>, documentId: Option<string>): (f: Option<Failure>)
    ensures f.Some? <==> !Present(professionalId) || !Present(documentId)
    ensures f.Some? ==> f.value == Http(400, "Professional ID and Document ID are required")
  {
    if !Present(professionalId) || !Present(documentId) then Some(Http(400, "Professional ID and Document ID are required"))
    else None
  }
}
