/**
 * The request handling of the build server's project routes: validation of the
 * posted PWA settings, the gate every APK-building POST handler applies before it
 * builds, and the signing key information made for a new key.
 */
module ProjectRoutes {
  import opened Common
  import Seqs

  // ---------------------------------------------------------------------------
  // The posted JSON, as JavaScript sees it

  datatype JsValue =
    | Undefined
    | Null
    | Bool(b: bool)
    | Num(n: real)
    | Str(s: string)
    | Arr(items: seq<JsValue>)
    | Obj(fields: map<string, JsValue>)

  /** JavaScript truthiness (there is no NaN in JSON). */
  predicate Truthy(v: JsValue)
  {
    match v
    case Undefined => false
    case Null => false
    case Bool(b) => b
    case Num(n) => n != 0.0
    case Str(s) => s != ""
    case Arr(_) => true
    case Obj(_) => true
  }

  predicate IsNullish(v: JsValue)
  {
    v.Undefined? || v.Null?
  }

  /** Property access `v[key]` for the keys the routes read: an object's own member,
      undefined for a missing one and on every other value. */
  function Get(v: JsValue, key: string): (r: JsValue)
    ensures !v.Obj? ==> r == Undefined
  {
    if v.Obj? && key in v.fields then v.fields[key] else Undefined
  }

  // ---------------------------------------------------------------------------
  // validateSettings

  const NoSettingsMessage: string := "No settings supplied"

  /** The members that must be truthy, in the order they are reported. */
  const RequiredFields: seq<string> := ["name", "host", "packageId", "iconUrl", "startUrl", "signingInfo", "appVersion"]

  function RequiredMessage(field: string): string
  {
    field + " is required"
  }

  function MissingIn(settings: JsValue): string -> bool
  {
    f => !Truthy(Get(settings, f))
  }

  /** The required members that are falsy, in the order of RequiredFields. */
  function MissingFields(settings: JsValue): seq<string>
  {
    Seqs.Filter(RequiredFields, MissingIn(settings))
  }

  /** validateSettings: the one message for absent settings; otherwise one
      "<field> is required" per falsy required member. */
  function ValidateSettings(settings: JsValue): (errors: seq<string>)
    ensures !Truthy(settings) ==> errors == [NoSettingsMessage]
    ensures |errors| <= |RequiredFields|
    ensures Truthy(settings) ==> |errors| == Seqs.Count(RequiredFields, MissingIn(settings))
  {
    Seqs.FilterLengthIsCount(RequiredFields, MissingIn(settings));
    if !Truthy(settings) then [NoSettingsMessage]
    else Seqs.Map(MissingFields(settings), RequiredMessage)
  }

  lemma RequiredMessageInjective(f: string, g: string)
    requires RequiredMessage(f) == RequiredMessage(g)
    ensures f == g
  {
    assert |f| == |g|;
    assert f == RequiredMessage(f)[..|f|];
  }

  /** Exactly the falsy required members are reported: "<f> is required" is among the
      errors iff f is required and falsy. So webManifestUrl and all other members
      never produce an error. */
  lemma ReportedIffMissing(settings: JsValue, f: string)
    requires Truthy(settings)
    ensures RequiredMessage(f) in ValidateSettings(settings) <==> f in RequiredFields && !Truthy(Get(settings, f))
  {
    var missing := MissingFields(settings);
    Seqs.FilterMembership(RequiredFields, MissingIn(settings), f);
    if f in missing {
      var i :| 0 <= i < |missing| && missing[i] == f;
      assert ValidateSettings(settings)[i] == RequiredMessage(f);
    }
    if RequiredMessage(f) in ValidateSettings(settings) {
      var i :| 0 <= i < |missing| && RequiredMessage(missing[i]) == RequiredMessage(f);
      RequiredMessageInjective(missing[i], f);
    }
  }

  /** Every message names a falsy required member: there are no other messages. */
  lemma EveryMessageNamesAMissingField(settings: JsValue, i: nat)
    requires Truthy(settings) && i < |ValidateSettings(settings)|
    ensures exists f :: f in RequiredFields && !Truthy(Get(settings, f)) && ValidateSettings(settings)[i] == RequiredMessage(f)
  {
    var missing := Seqs.Filter(RequiredFields, MissingIn(settings));
    Seqs.FilterMembership(RequiredFields, MissingIn(settings), missing[i]);
    assert MissingIn(settings)(missing[i]);
  }

  /** Messages come in the order of RequiredFields: the message for required member
      number a sits at the number of falsy members before it, so an earlier member's
      message precedes a later one's. */
  lemma MessagesInFieldOrder(settings: JsValue, a: nat, b: nat)
    requires Truthy(settings)
    requires a < b < |RequiredFields|
    requires !Truthy(Get(settings, RequiredFields[a])) && !Truthy(Get(settings, RequiredFields[b]))
    ensures var errors, pa, pb := ValidateSettings(settings),
                                  |Seqs.Filter(RequiredFields[..a], MissingIn(settings))|,
                                  |Seqs.Filter(RequiredFields[..b], MissingIn(settings))|;
      && pa < pb < |errors|
      && errors[pa] == RequiredMessage(RequiredFields[a])
      && errors[pb] == RequiredMessage(RequiredFields[b])
  {
    var p := MissingIn(settings);
    Seqs.FilterPosition(RequiredFields, p, a);
    Seqs.FilterPosition(RequiredFields, p, b);
    Seqs.FilterKeepsOrder(RequiredFields, p, a, b);
  }

  /** No errors exactly when there are settings and every required member is truthy. */
  lemma ValidIffAllRequiredPresent(settings: JsValue)
    ensures ValidateSettings(settings) == [] <==>
      Truthy(settings) && forall i :: 0 <= i < |RequiredFields| ==> Truthy(Get(settings, RequiredFields[i]))
  {
    if Truthy(settings) {
      Seqs.FilterEmptyIff(RequiredFields, MissingIn(settings));
    }
  }

  /** Settings holding none of the required members (an empty object, say) are
      told about all seven, in the order of RequiredFields. */
  lemma NothingPresentReportsEverything(settings: JsValue)
    requires Truthy(settings)
    requires forall i :: 0 <= i < |RequiredFields| ==> !Truthy(Get(settings, RequiredFields[i]))
    ensures |ValidateSettings(settings)| == |RequiredFields|
    ensures forall i :: 0 <= i < |RequiredFields| ==> ValidateSettings(settings)[i] == RequiredMessage(RequiredFields[i])
  {
    Seqs.FilterKeepsAll(RequiredFields, MissingIn(settings));
  }

  // ---------------------------------------------------------------------------
  // The gate of the three POST handlers

  datatype Route = GenerateSignedApk | GenerateSignedApkZip | GenerateUnsignedApk

  /** What a handler does first: answer 500 without building, or go on to build. */
  datatype HandlerStart = Reject(status: nat, body: string) | Build(route: Route)

  const InvalidSettingsPrefix: string := "Invalid PWA settings: "

  /** The validation gate at the head of every POST handler. */
  function ValidationGate(route: Route, settings: JsValue): (d: HandlerStart)
    ensures d.Reject? <==> ValidateSettings(settings) != []
    ensures d.Reject? ==> d.status == 500 && d.body == InvalidSettingsPrefix + Seqs.Join(ValidateSettings(settings), ", ")
    ensures d.Build? ==> d.route == route
  {
    var errors := ValidateSettings(settings);
    if |errors| > 0 then Reject(500, InvalidSettingsPrefix + Seqs.Join(errors, ", ")) else Build(route)
  }

  /** A handler builds exactly when there are settings and every required member is
      truthy; this holds for each of the three routes alike. */
  lemma GateBuildsOnlyValidSettings(route: Route, settings: JsValue)
    ensures ValidationGate(route, settings).Build? <==>
      Truthy(settings) && forall i :: 0 <= i < |RequiredFields| ==> Truthy(Get(settings, RequiredFields[i]))
  {
    ValidIffAllRequiredPresent(settings);
  }

  /** A rejection always carries at least one message after the prefix. */
  lemma RejectionNamesAProblem(route: Route, settings: JsValue)
    requires ValidationGate(route, settings).Reject?
    ensures |ValidationGate(route, settings).body| > |InvalidSettingsPrefix|
  {
    var errors := ValidateSettings(settings);
    assert forall i :: 0 <= i < |errors| ==> errors[i] != "";
    Seqs.JoinEmptyIff(errors, ", ");
  }

  // ---------------------------------------------------------------------------
  // createSigningKeyInfo

  /** SigningKeyInfo; the identity members are whatever the request held. */
  datatype SigningKeyInfo = SigningKeyInfo(
    keyStorePath: string,
    keyStorePassword: string,
    keyAlias: string,
    keyPassword: string,
    firstAndLastName: JsValue,
    organization: JsValue,
    organizationalUnit: JsValue,
    countryCode: JsValue)

  const KeyAlias: string := "my-key-alias"
  const KeyStoreFile: string := "my-signing-key.keystore"

  /** createSigningKeyInfo, with the two generated passwords given as parameters.
      Reading `settings.signingInfo.fullName` throws when signingInfo is null or
      undefined, so the settings must carry one. */
  function CreateSigningKeyInfo(projectDirectory: string, settings: JsValue,
                                keyStorePassword: string, keyPassword: string): (info: SigningKeyInfo)
    requires !IsNullish(settings) && !IsNullish(Get(settings, "signingInfo"))
    ensures info.keyAlias == KeyAlias
    ensures info.keyStorePath == projectDirectory + "/" + KeyStoreFile
    ensures info.firstAndLastName == Get(Get(settings, "signingInfo"), "fullName")
    ensures info.organization == Get(Get(settings, "signingInfo"), "organization")
    ensures info.organizationalUnit == Get(Get(settings, "signingInfo"), "organizationalUnit")
    ensures info.countryCode == Get(Get(settings, "signingInfo"), "countryCode")
  {
    var signingInfo := Get(settings, "signingInfo");
    SigningKeyInfo(projectDirectory + "/" + KeyStoreFile, keyStorePassword, KeyAlias, keyPassword,
                   Get(signingInfo, "fullName"), Get(signingInfo, "organization"),
                   Get(signingInfo, "organizationalUnit"), Get(signingInfo, "countryCode"))
  }

  /** Apart from the two passwords the key info depends only on the directory and
      the settings. */
  lemma KeyInfoDeterministicButPasswords(projectDirectory: string, settings: JsValue,
                                         storeA: string, keyA: string, storeB: string, keyB: string)
    requires !IsNullish(settings) && !IsNullish(Get(settings, "signingInfo"))
    ensures CreateSigningKeyInfo(projectDirectory, settings, storeA, keyA)
         == CreateSigningKeyInfo(projectDirectory, settings, storeB, keyB).(keyStorePassword := storeA, keyPassword := keyA)
  {
  }

  /** Settings that pass the gate can always be given to createSigningKeyInfo. */
  lemma ValidatedSettingsHaveSigningInfo(settings: JsValue)
    requires ValidateSettings(settings) == []
    ensures !IsNullish(settings) && !IsNullish(Get(settings, "signingInfo"))
  {
    ValidIffAllRequiredPresent(settings);
    assert RequiredFields[5] == "signingInfo";
  }
}
