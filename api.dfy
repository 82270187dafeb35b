/** The HTTP client (services/api/index.tsx): the interceptors that attach
    the stored access token and renew it once on a 401, and the query
    strings, bodies and forms the endpoint helpers build. Queries are
    sequences of key/value pairs in the order they are appended; URL
    encoding and the transport are not modelled. */
module Api {
  import opened Common

  // =====================================================================
  // Queries and bodies

  type Query = seq<(string, string)>

  /** `if (value) params.append(key, value)`. */
  function AppendIf(q: Query, key: string, value: Option<string>): (r: Query)
    ensures Truthy(value) ==> r == q + [(key, value.value)]
    ensures !Truthy(value) ==> r == q
  {
    if Truthy(value) then q + [(key, value.value)] else q
  }

  /** A number field as the text `toString` gives it, when the number is
      truthy (0 and undefined are skipped). */
  function NumberField(n: Option<int>): (r: Option<string>)
    ensures Truthy(r) <==> TruthyInt(n)
    ensures TruthyInt(n) ==> r == Some(IntToString(n.value))
  {
    if TruthyInt(n) then
      Some(IntToString(n.value))
    else None
  }

  /** A parameter with a default: `page = 1` applies only to undefined. */
  function WithDefault(n: Option<int>, default: int): int {
    if n.Some? then n.value else default
  }

  /** The reference reading of "append only the truthy fields, in order". */
  function Present(fields: seq<(string, Option<string>)>): (r: Query)
    decreases |fields|
  {
    if fields == [] then []
    else
      var (k, v) := fields[0];
      (if Truthy(v) then [(k, v.value)] else []) + Present(fields[1..])
  }

  /** A pair is sent exactly when its field is truthy, with the field's
      value. */
  lemma {:induction false} PresentMembers(fields: seq<(string, Option<string>)>, k: string, v: string)
    ensures (k, v) in Present(fields) <==>
              exists i :: 0 <= i < |fields| && fields[i].0 == k && fields[i].1 == Some(v) && v != ""
    decreases |fields|
  {
    if fields != [] {
      PresentMembers(fields[1..], k, v);
      if (k, v) in Present(fields[1..]) {
        var i :| 0 <= i < |fields[1..]| && fields[1..][i].0 == k && fields[1..][i].1 == Some(v) && v != "";
        assert fields[i + 1] == fields[1..][i];
      }
      if exists i :: 0 <= i < |fields| && fields[i].0 == k && fields[i].1 == Some(v) && v != "" {
        var i :| 0 <= i < |fields| && fields[i].0 == k && fields[i].1 == Some(v) && v != "";
        if i > 0 {
          assert fields[1..][i - 1] == fields[i];
        }
      }
    }
  }

  /** A run of `if (value) params.append(key, value)` statements. */
  function AppendAll(q: Query, fields: seq<(string, Option<string>)>): (r: Query)
    ensures |q| <= |r| && r[..|q|] == q
    decreases |fields|
  {
    if fields == [] then q else AppendAll(AppendIf(q, fields[0].0, fields[0].1), fields[1..])
  }

  /** The appends add exactly the truthy fields, in order. */
  lemma {:induction false} AppendAllPresent(q: Query, fields: seq<(string, Option<string>)>)
    ensures AppendAll(q, fields) == q + Present(fields)
    decreases |fields|
  {
    if fields != [] {
      AppendAllPresent(AppendIf(q, fields[0].0, fields[0].1), fields[1..]);
    }
  }

  /** The parameters of `getFilteredVehicles`. */
  datatype VehicleSearch = VehicleSearch(
    page: Option<int>,
    limit: Option<int>,
    title: Option<string>,
    vehicleType: Option<string>,
    brand: Option<string>,
    model: Option<string>,
    year: Option<int>,
    color: Option<string>,
    city: Option<string>,
    district: Option<string>)

  /** The optional fields in the order they are appended. */
  function OptionalSearchFields(p: VehicleSearch): seq<(string, Option<string>)> {
    [("title", p.title), ("vehicleType", p.vehicleType), ("brand", p.brand), ("model", p.model),
     ("year", NumberField(p.year)), ("color", p.color), ("city", p.city), ("district", p.district)]
  }

  function FilteredVehiclesQuery(p: VehicleSearch): Query {
    var q := [("page", IntToString(WithDefault(p.page, 1))), ("limit", IntToString(WithDefault(p.limit, 10)))];
    AppendAll(q, OptionalSearchFields(p))
  }

  /** `page` and `limit` always come first (1 and 10 when undefined), then
      exactly the truthy optional fields in the fixed order. */
  lemma FilteredVehiclesShape(p: VehicleSearch)
    ensures var q := FilteredVehiclesQuery(p);
            && |q| >= 2
            && q[0] == ("page", IntToString(WithDefault(p.page, 1)))
            && q[1] == ("limit", IntToString(WithDefault(p.limit, 10)))
            && q[2..] == Present(OptionalSearchFields(p))
  {
    var q := [("page", IntToString(WithDefault(p.page, 1))), ("limit", IntToString(WithDefault(p.limit, 10)))];
    AppendAllPresent(q, OptionalSearchFields(p));
  }

  /** A filter is sent, with its value, exactly when it is truthy. */
  lemma FilteredVehiclesSendsTruthy(p: VehicleSearch, v: string)
    ensures |FilteredVehiclesQuery(p)| >= 2
    ensures var rest := FilteredVehiclesQuery(p)[2..];
            && (("brand", v) in rest <==> p.brand == Some(v) && v != "")
            && (("city", v) in rest <==> p.city == Some(v) && v != "")
            && (("year", v) in rest <==> TruthyInt(p.year) && v == IntToString(p.year.value))
  {
    var f := OptionalSearchFields(p);
    FilteredVehiclesShape(p);
    PresentMembers(f, "brand", v);
    PresentMembers(f, "city", v);
    PresentMembers(f, "year", v);
    assert f[2].0 == "brand" && f[6].0 == "city" && f[4].0 == "year";
  }

  /** `getVehicleRatings`: vehicleId, page, limit, then rating when truthy. */
  function RatingsQuery(vehicleId: int, rating: Option<int>, page: Option<int>, limit: Option<int>): (q: Query)
    ensures |q| == 3 || |q| == 4
    ensures q[..3] == [("vehicleId", IntToString(vehicleId)), ("page", IntToString(WithDefault(page, 1))),
                       ("limit", IntToString(WithDefault(limit, 10)))]
    ensures |q| == 4 <==> TruthyInt(rating)
    ensures |q| == 4 ==> q[3] == ("rating", IntToString(rating.value))
  {
    var q := [("vehicleId", IntToString(vehicleId)), ("page", IntToString(WithDefault(page, 1))),
              ("limit", IntToString(WithDefault(limit, 10)))];
    AppendIf(q, "rating", NumberField(rating))
  }

  /** `checkVehicleAvailability`: vehicleId, then month and year when truthy. */
  function AvailabilityQuery(vehicleId: int, month: Option<int>, year: Option<int>): (q: Query)
    ensures |q| >= 1 && q[0] == ("vehicleId", IntToString(vehicleId))
    ensures q[1..] == Present([("month", NumberField(month)), ("year", NumberField(year))])
  {
    var fields := [("month", NumberField(month)), ("year", NumberField(year))];
    AppendAllPresent([("vehicleId", IntToString(vehicleId))], fields);
    AppendAll([("vehicleId", IntToString(vehicleId))], fields)
  }

  /** The body of `createRating` and `editRating`. */
  datatype RatingBody = RatingBody(vehicleId: int, rating: int, comment: Option<string>)

  function MakeRatingBody(vehicleId: int, rating: int, comment: Option<string>): (b: RatingBody)
    ensures b.vehicleId == vehicleId && b.rating == rating
    ensures b.comment.Some? <==> Truthy(comment)
    ensures b.comment.Some? ==> b.comment == comment
  {
    RatingBody(vehicleId, rating, if Truthy(comment) then comment else None)
  }

  /** A part of a multipart form: text, or a file given by its URI. */
  datatype FormPart = TextPart(key: string, text: string) | FilePart(key: string, uri: string, name: string, mime: string)

  function PartKey(p: FormPart): string {
    p.key
  }

  function HasKey(f: seq<FormPart>, key: string): bool {
    exists i :: 0 <= i < |f| && PartKey(f[i]) == key
  }

  /** The position of a field in `updateUser`'s form. */
  function UpdateRank(key: string): int {
    if key == "nickname" then 0 else if key == "avatar" then 1 else 2
  }

  /** `updateUser`: nickname, avatar and phone number, each only when truthy;
      the avatar goes as a JPEG file. */
  function UpdateUserForm(nickname: Option<string>, avatar: Option<string>, phoneNumber: Option<string>): (f: seq<FormPart>)
    ensures forall i :: 0 <= i < |f| ==> PartKey(f[i]) == "nickname" || PartKey(f[i]) == "avatar" || PartKey(f[i]) == "phoneNumber"
    ensures HasKey(f, "nickname") <==> Truthy(nickname)
    ensures HasKey(f, "avatar") <==> Truthy(avatar)
    ensures HasKey(f, "phoneNumber") <==> Truthy(phoneNumber)
    ensures Truthy(nickname) ==> TextPart("nickname", nickname.value) in f
    ensures Truthy(avatar) ==> FilePart("avatar", avatar.value, "avatar.jpg", "image/jpeg") in f
    ensures Truthy(phoneNumber) ==> TextPart("phoneNumber", phoneNumber.value) in f
    ensures forall i, j :: 0 <= i < j < |f| ==> PartKey(f[i]) != PartKey(f[j])
    ensures forall i, j :: 0 <= i < j < |f| ==> UpdateRank(PartKey(f[i])) < UpdateRank(PartKey(f[j]))
  {
    var a := if Truthy(nickname) then [TextPart("nickname", nickname.value)] else [];
    var b := if Truthy(avatar) then [FilePart("avatar", avatar.value, "avatar.jpg", "image/jpeg")] else [];
    var c := if Truthy(phoneNumber) then [TextPart("phoneNumber", phoneNumber.value)] else [];
    var f := a + b + c;
    assert Truthy(nickname) ==> f[0] == TextPart("nickname", nickname.value);
    assert Truthy(avatar) ==> f[|a|] == FilePart("avatar", avatar.value, "avatar.jpg", "image/jpeg");
    assert Truthy(phoneNumber) ==> f[|a| + |b|] == TextPart("phoneNumber", phoneNumber.value);
    f
  }

  /** The fields of `requestUpdateToLevel2`. */
  datatype Level2Request = Level2Request(
    firstName: string,
    middleName: Option<string>,
    lastName: string,
    idCardNumber: string,
    driverLicense: string,
    idCardFront: string,
    idCardBack: string,
    driverLicenseFront: string,
    driverLicenseBack: string)

  function Level2Form(d: Level2Request): (f: seq<FormPart>)
    ensures |f| == if Truthy(d.middleName) then 9 else 8
    ensures f[0] == TextPart("firstName", d.firstName)
    ensures Truthy(d.middleName) ==> f[1] == TextPart("middleName", d.middleName.value)
    ensures forall i :: 0 <= i < |f| ==> (PartKey(f[i]) == "middleName" <==> Truthy(d.middleName) && i == 1)
    ensures f[|f| - 7..|f| - 4] == [TextPart("lastName", d.lastName), TextPart("idCardNumber", d.idCardNumber),
                                   TextPart("driverLicense", d.driverLicense)]
    ensures f[|f| - 4..] == [FilePart("idCardFront", d.idCardFront, "idCardFront.jpg", "image/jpeg"),
                            FilePart("idCardBack", d.idCardBack, "idCardBack.jpg", "image/jpeg"),
                            FilePart("driverLicenseFront", d.driverLicenseFront, "driverLicenseFront.jpg", "image/jpeg"),
                            FilePart("driverLicenseBack", d.driverLicenseBack, "driverLicenseBack.jpg", "image/jpeg")]
  {
    var head := [TextPart("firstName", d.firstName)];
    var middle := if Truthy(d.middleName) then [TextPart("middleName", d.middleName.value)] else [];
    var rest := [TextPart("lastName", d.lastName), TextPart("idCardNumber", d.idCardNumber),
                 TextPart("driverLicense", d.driverLicense),
                 FilePart("idCardFront", d.idCardFront, "idCardFront.jpg", "image/jpeg"),
                 FilePart("idCardBack", d.idCardBack, "idCardBack.jpg", "image/jpeg"),
                 FilePart("driverLicenseFront", d.driverLicenseFront, "driverLicenseFront.jpg", "image/jpeg"),
                 FilePart("driverLicenseBack", d.driverLicenseBack, "driverLicenseBack.jpg", "image/jpeg")];
    head + middle + rest
  }

  /** What `sendMessage` posts: a form for images, JSON otherwise. */
  datatype MessageRequest =
    | MultipartMessage(sessionId: string, msgType: string, image: string)
    | JsonMessage(session: int, msgType: string, content: Option<string>)

  function SendMessageRequest(sessionId: int, msgType: string, content: Option<string>, image: string): (r: MessageRequest)
    ensures r.MultipartMessage? <==> msgType == "image"
    ensures r.MultipartMessage? ==> r == MultipartMessage(IntToString(sessionId), "image", image)
    ensures r.JsonMessage? ==> r == JsonMessage(sessionId, msgType, content)
  {
    if msgType == "image" then MultipartMessage(IntToString(sessionId), msgType, image)
    else JsonMessage(sessionId, msgType, content)
  }

  // =====================================================================
  // The interceptors

  /** `Authorization` set by the request interceptor: present iff a token is
      stored (an empty one counts as none). */
  function AuthHeader(stored: Option<string>): (h: Option<string>)
    ensures h.Some? <==> Truthy(stored)
    ensures h.Some? ==> h.value == "Bearer " + stored.value
  {
    if Truthy(stored) then Some("Bearer " + stored.value) else None
  }

  /** How the server answers one request, given its `Authorization` header. */
  type Server = Option<string> -> int

  /** The answer of `renew-access-token`: a thrown error, or a body status
      and token. */
  datatype Renewal = RenewThrown | Renewed(status: int, accessToken: string)

  /** What the caller's promise settles to: a 2xx response, the rejection of
      a response with another status, or the session-expired error. */
  datatype Outcome = Resolved(status: int) | Rejected(status: int) | SessionExpired

  predicate Ok(status: int) {
    200 <= status < 300
  }

  function Settle(status: int): Outcome {
    if Ok(status) then Resolved(status) else Rejected(status)
  }

  const SessionExpiredMessage := "Session expired. Please sign in again."

  /** The client with the two token entries of the device storage, and the
      `Authorization` headers of the requests it has sent. */
  class ApiClient {
    var accessToken: Option<string>
    var refreshToken: Option<string>
    var sent: seq<Option<string>>

    constructor (access: Option<string>, refresh: Option<string>)
      ensures accessToken == access && refreshToken == refresh && sent == []
    {
      accessToken := access;
      refreshToken := refresh;
      sent := [];
    }

    /** Sends one request through both interceptors. A 401 on the first try
        asks for a new token once; a renewed token is stored and the request
        goes out once more; any failure to renew is the session-expired
        error; every other failure is passed on unchanged. */
    method Request(server: Server, renew: string -> Renewal) returns (outcome: Outcome)
      modifies this
      ensures |sent| == |old(sent)| + 1 || |sent| == |old(sent)| + 2
      ensures sent[..|old(sent)| + 1] == old(sent) + [AuthHeader(old(accessToken))]
      ensures refreshToken == old(refreshToken)
      ensures var first := server(AuthHeader(old(accessToken)));
              if first != 401 then
                outcome == Settle(first) && |sent| == |old(sent)| + 1 && accessToken == old(accessToken)
              else if !Truthy(old(refreshToken)) then
                outcome == SessionExpired && |sent| == |old(sent)| + 1 && accessToken == old(accessToken)
              else match renew(old(refreshToken).value)
                case RenewThrown =>
                  outcome == SessionExpired && |sent| == |old(sent)| + 1 && accessToken == old(accessToken)
                case Renewed(status, token) =>
                  if status != 200 then
                    outcome == SessionExpired && |sent| == |old(sent)| + 1 && accessToken == old(accessToken)
                  else
                    && accessToken == Some(token)
                    && sent == old(sent) + [AuthHeader(old(accessToken)), Some("Bearer " + token)]
                    && outcome == Settle(server(Some("Bearer " + token)))
    {
      var header := AuthHeader(accessToken);
      sent := sent + [header];
      var status := server(header);
      if status != 401 {
        return Settle(status);
      }
      // `_retry` is set here; the retried request meets this branch no more.
      if !Truthy(refreshToken) {
        return SessionExpired;
      }
      var answer := renew(refreshToken.value);
      if answer.RenewThrown? || answer.status != 200 {
        return SessionExpired;
      }
      accessToken := Some(answer.accessToken);
      var retryHeader := Some("Bearer " + answer.accessToken);
      sent := sent + [retryHeader];
      status := server(retryHeader);
      outcome := Settle(status);
    }
  }

  /** A server that keeps answering 401 sees the request at most twice, and
      the caller then gets the second 401 back unchanged. */
  method AlwaysUnauthorized(renew: string -> Renewal)
  {
    var client := new ApiClient(Some("old"), Some("refresh"));
    var outcome := client.Request(_ => 401, renew);
    assert |client.sent| <= 2;
    assert outcome == SessionExpired || outcome == Rejected(401);
  }
}
