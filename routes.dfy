/** The request checks of the backend's routes: the `token_required`
    decorator and the validation branches of `register`, `login` and
    `upload_resume`. Database rows, JWT decoding and encoding and password
    hashing are parameters: the model keeps only what they return. */
module Routes {
  import opened Wrappers
  import opened Text
  import opened Api

  /** An error response: HTTP status and the JSON `message`. */
  datatype HttpError = HttpError(status: int, message: string)

  /** A row of the `users` table. */
  datatype UserRow = UserRow(id: int, username: string, email: string, passwordHash: string)

  /** `token[7:]` when the header starts with "Bearer ", the header itself otherwise. */
  function StripBearer(header: string): (token: string)
    ensures StartsWith(header, BearerPrefix) ==> |token| == |header| - 7 && token == header[7..]
    ensures !StartsWith(header, BearerPrefix) ==> token == header
  {
    if StartsWith(header, BearerPrefix) then header[7..] else header
  }

  /** What the server decodes from the header the client builds is the client's token. */
  lemma BearerRoundTrip(token: string)
    ensures StripBearer(BearerHeader(token)) == token
  {
    var h := BearerHeader(token);
    assert h[..|BearerPrefix|] == BearerPrefix;
    assert h[7..] == token;
  }

  /** `token_required`: the id of the authenticated user, or the 401 response.
      `decode` stands for `jwt.decode` followed by `data['user_id']`; `None` is
      any exception they raise. */
  function TokenRequired(authorization: Option<string>, decode: string -> Option<int>): (r: Result<int, HttpError>)
    ensures !Truthy(authorization) ==> r == Failure(HttpError(401, "Token is missing"))
    ensures Truthy(authorization) ==>
      (r.Success? <==> decode(StripBearer(authorization.value)).Some?)
    ensures r.Success? ==> Truthy(authorization) && r.value == decode(StripBearer(authorization.value)).value
    ensures r.Failure? && Truthy(authorization) ==> r.error == HttpError(401, "Token is invalid")
  {
    if !Truthy(authorization) then Failure(HttpError(401, "Token is missing"))
    else
      match decode(StripBearer(authorization.value))
      case None => Failure(HttpError(401, "Token is invalid"))
      case Some(userId) => Success(userId)
  }

  /** A request carrying the header the client builds from `token` is
      authenticated exactly when `token` itself decodes. */
  lemma ClientHeaderAccepted(token: string, decode: string -> Option<int>)
    ensures TokenRequired(Some(BearerHeader(token)), decode).Success? <==> decode(token).Some?
  {
    BearerRoundTrip(token);
    assert BearerHeader(token) != "" by { assert |BearerHeader(token)| >= 7; }
  }

  /** `register`. `users` is the table, `newId` the row id the insert gets and
      `token` the JWT issued for it. */
  function Register(username: Option<string>, email: Option<string>, password: Option<string>,
                    users: seq<UserRow>, newId: int, token: string): (r: Result<AuthResponse, HttpError>)
    ensures !(Truthy(username) && Truthy(email) && Truthy(password)) ==>
      r == Failure(HttpError(400, "All fields are required"))
    ensures r.Success? <==>
      Truthy(username) && Truthy(email) && Truthy(password) &&
      forall row :: row in users ==> row.username != username.value && row.email != email.value
    ensures r.Failure? ==> r.error.status == 400
    ensures r.Success? ==>
      r.value == AuthResponse("User created successfully", token, User(newId, username.value, email.value))
  {
    if !(Truthy(username) && Truthy(email) && Truthy(password)) then
      Failure(HttpError(400, "All fields are required"))
    else if exists row :: row in users && (row.username == username.value || row.email == email.value) then
      Failure(HttpError(400, "User already exists"))
    else
      Success(AuthResponse("User created successfully", token, User(newId, username.value, email.value)))
  }

  /** `SELECT ... WHERE username = ? OR email = ?` with `fetchone()`: the first
      row, in table order, whose username or email is `name`. */
  function FindUser(users: seq<UserRow>, name: string): (r: Option<UserRow>)
    ensures r.None? <==> forall row :: row in users ==> row.username != name && row.email != name
    ensures r.Some? ==> r.value in users && (r.value.username == name || r.value.email == name)
  {
    if users == [] then None
    else if users[0].username == name || users[0].email == name then Some(users[0])
    else FindUser(users[1..], name)
  }

  /** `login`. `checkHash` stands for `check_password_hash`. */
  function Login(username: Option<string>, password: Option<string>, users: seq<UserRow>,
                 checkHash: (string, string) -> bool, token: string): (r: Result<AuthResponse, HttpError>)
    ensures !(Truthy(username) && Truthy(password)) ==>
      r == Failure(HttpError(400, "Username and password are required"))
    ensures Truthy(username) && Truthy(password) && FindUser(users, username.value).None? ==>
      r == Failure(HttpError(401, "Invalid credentials"))
    ensures r.Success? <==>
      Truthy(username) && Truthy(password) && FindUser(users, username.value).Some? &&
      checkHash(FindUser(users, username.value).value.passwordHash, password.value)
    ensures r.Success? ==>
      var row := FindUser(users, username.value).value;
      row in users && (row.username == username.value || row.email == username.value) &&
      r.value == AuthResponse("Login successful", token, User(row.id, row.username, row.email))
    ensures r.Failure? && Truthy(username) && Truthy(password) ==> r.error == HttpError(401, "Invalid credentials")
  {
    if !(Truthy(username) && Truthy(password)) then
      Failure(HttpError(400, "Username and password are required"))
    else
      var user := FindUser(users, username.value);
      if user.None? || !checkHash(user.value.passwordHash, password.value) then
        Failure(HttpError(401, "Invalid credentials"))
      else
        Success(AuthResponse("Login successful", token, User(user.value.id, user.value.username, user.value.email)))
  }

  /** Whether a file name passes `filename.lower().endswith(('.pdf', '.docx'))`. */
  predicate AllowedExtension(filename: string) {
    EndsWith(Lower(filename), ".pdf") || EndsWith(Lower(filename), ".docx")
  }

  /** The checks `upload_resume` makes before saving the file: `files` maps
      each multipart part name to its file name. The accepted file name, or
      the 400 response of the first check that fails. */
  function ValidateUpload(files: map<string, string>): (r: Result<string, HttpError>)
    ensures "resume" !in files ==> r == Failure(HttpError(400, "No file uploaded"))
    ensures "resume" in files && files["resume"] == "" ==> r == Failure(HttpError(400, "No file selected"))
    ensures "resume" in files && files["resume"] != "" && !AllowedExtension(files["resume"]) ==>
      r == Failure(HttpError(400, "Only PDF and DOCX files are allowed"))
    ensures r.Success? <==> "resume" in files && files["resume"] != "" && AllowedExtension(files["resume"])
    ensures r.Success? ==> r.value == files["resume"]
  {
    if "resume" !in files then Failure(HttpError(400, "No file uploaded"))
    else
      var filename := files["resume"];
      if filename == "" then Failure(HttpError(400, "No file selected"))
      else if !AllowedExtension(filename) then Failure(HttpError(400, "Only PDF and DOCX files are allowed"))
      else Success(filename)
  }

  /** Upper-case extensions pass too: the check lower-cases the name first. */
  lemma UpperCaseExtensionAccepted(stem: string)
    ensures AllowedExtension(stem + ".PDF") && AllowedExtension(stem + ".DocX")
  {
    var p := stem + ".PDF";
    assert Lower(p)[|p| - 4..] == ".pdf" by {
      forall k | 0 <= k < 4 ensures Lower(p)[|p| - 4 + k] == ".pdf"[k] {
        assert p[|p| - 4 + k] == ".PDF"[k];
      }
    }
    var d := stem + ".DocX";
    assert Lower(d)[|d| - 5..] == ".docx" by {
      forall k | 0 <= k < 5 ensures Lower(d)[|d| - 5 + k] == ".docx"[k] {
        assert d[|d| - 5 + k] == ".DocX"[k];
      }
    }
  }
}
