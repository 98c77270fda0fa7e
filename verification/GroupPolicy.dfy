/** Group policy and profile documents: validation, defaults and the permissions they grant. */
module GroupPolicy {
  import opened Common
  import opened MergePatch
  import Decimal

  const MAX_MEMBERS := 100

  datatype Role = MemberRole | AdminRole | OwnerRole {
    function Level(): nat {
      match this
      case MemberRole => 1
      case AdminRole => 2
      case OwnerRole => 3
    }
  }

  datatype PolicyError =
    | PolicyRequired
    | PolicyFieldsInvalid
    | SecurityProfileNotSupported
    | AdmissionModeInvalid
    | PermissionsInvalid
    | PermissionRoleInvalid
    | MaxMembersInvalid
    | MaxMembersExceeded
    | AttachmentsAllowedInvalid
    | ProfileRequired
    | DiscoverabilityInvalid

  const TRANSPORT := Str(Known(TransportProtected))

  const POLICY_KEYS: set<Name> := {
    Known(MessageSecurityProfile), Known(BootstrapSecurityProfile), Known(AdmissionMode),
    Known(Permissions), Known(AttachmentsAllowed), Known(MaxMembers)
  }

  const PERMISSION_KEYS: set<Name> := {
    Known(SendPermission), Known(AddPermission), Known(RemovePermission),
    Known(UpdateProfilePermission), Known(UpdatePolicyPermission)
  }

  const DEFAULT_POLICY: map<Name, Json> := map[
    Known(MessageSecurityProfile) := TRANSPORT,
    Known(BootstrapSecurityProfile) := TRANSPORT,
    Known(AdmissionMode) := Str(Known(OpenJoinMode)),
    Known(Permissions) := Obj(map[
      Known(SendPermission) := Str(Known(MemberName)), Known(AddPermission) := Str(Known(AdminName)),
      Known(RemovePermission) := Str(Known(AdminName)),
      Known(UpdateProfilePermission) := Str(Known(AdminName)), Known(UpdatePolicyPermission) := Str(Known(OwnerName))]),
    Known(AttachmentsAllowed) := Bool(false),
    Known(MaxMembers) := Str(Text("100"))]

  function RoleNamed(name: Json): Option<Role> {
    if name == Str(Known(MemberName)) then Some(MemberRole)
    else if name == Str(Known(AdminName)) then Some(AdminRole)
    else if name == Str(Known(OwnerName)) then Some(OwnerRole)
    else None
  }

  /** Python's `int(value)` on the JSON values it accepts here: numbers, booleans and signed digits. */
  function AsInt(value: Json): Option<int> {
    match value
    case Num(n) => Some(n)
    case Bool(b) => Some(if b then 1 else 0)
    case Str(Text(s)) =>
      var digits := if s != [] && (s[0] == '-' || s[0] == '+') then s[1..] else s;
      if digits == [] || !Decimal.AllDigits(digits) then None
      else
        var magnitude: int := Decimal.Value(digits);
        Some(if s[0] == '-' then -magnitude else magnitude)
    case _ => None
  }

  predicate PermissionRolesKnown(permissions: Json) {
    permissions.Obj? && forall k :: k in permissions.fields ==> RoleNamed(permissions.fields[k]).Some?
  }

  /** `_validate_policy`: fill in defaults, reject anything unknown, normalise `max_members`. */
  function ValidatePolicy(value: Json): Result<Json, PolicyError> {
    if !value.Obj? then Err(PolicyRequired)
    else if !(value.fields.Keys <= POLICY_KEYS) then Err(PolicyFieldsInvalid)
    else
      var policy := DEFAULT_POLICY + value.fields;
      var permissions := policy[Known(Permissions)];
      var limit := AsInt(policy[Known(MaxMembers)]);
      if policy[Known(MessageSecurityProfile)] != TRANSPORT || policy[Known(BootstrapSecurityProfile)] != TRANSPORT then
        Err(SecurityProfileNotSupported)
      else if policy[Known(AdmissionMode)] != Str(Known(OpenJoinMode)) && policy[Known(AdmissionMode)] != Str(Known(AdminAddMode)) then
        Err(AdmissionModeInvalid)
      else if !permissions.Obj? || permissions.fields.Keys != PERMISSION_KEYS then Err(PermissionsInvalid)
      else if !PermissionRolesKnown(permissions) then Err(PermissionRoleInvalid)
      else if limit.None? then Err(MaxMembersInvalid)
      else if limit.value < 1 || limit.value > MAX_MEMBERS then Err(MaxMembersExceeded)
      else if !policy[Known(AttachmentsAllowed)].Bool? then Err(AttachmentsAllowedInvalid)
      else Ok(Obj(policy[Known(MaxMembers) := Str(Text(Decimal.Print(limit.value)))]))
  }

  /** A policy as the database may hold it: complete, closed, and with a canonical member limit. */
  ghost predicate ValidPolicy(policy: Json) {
    && policy.Obj?
    && policy.fields.Keys == POLICY_KEYS
    && policy.fields[Known(MessageSecurityProfile)] == TRANSPORT
    && policy.fields[Known(BootstrapSecurityProfile)] == TRANSPORT
    && policy.fields[Known(AdmissionMode)] in {Str(Known(OpenJoinMode)), Str(Known(AdminAddMode))}
    && policy.fields[Known(Permissions)].Obj?
    && policy.fields[Known(Permissions)].fields.Keys == PERMISSION_KEYS
    && PermissionRolesKnown(policy.fields[Known(Permissions)])
    && policy.fields[Known(AttachmentsAllowed)].Bool?
    && exists n: nat :: 1 <= n <= MAX_MEMBERS && policy.fields[Known(MaxMembers)] == Str(Text(Decimal.Print(n)))
  }

  lemma PrintedLimitReadsBack(n: nat)
    ensures AsInt(Str(Text(Decimal.Print(n)))) == Some(n)
  {
    Decimal.PrintIsCanonical(n);
    var s := Decimal.Print(n);
    assert Decimal.IsDigit(s[0]);
  }

  /** Validation yields only storable policies, and storable policies are its fixed points. */
  lemma ValidationIsAProjection(value: Json)
    ensures ValidatePolicy(value).Ok? ==> ValidPolicy(ValidatePolicy(value).value)
    ensures ValidPolicy(value) <==> ValidatePolicy(value) == Ok(value)
  {
    if ValidatePolicy(value).Ok? {
      var policy := ValidatePolicy(value).value;
      assert policy.fields.Keys == POLICY_KEYS;
      var limit: nat := AsInt((DEFAULT_POLICY + value.fields)[Known(MaxMembers)]).value;
      assert policy.fields[Known(MaxMembers)] == Str(Text(Decimal.Print(limit)));
    }
    if ValidPolicy(value) {
      var n: nat :| 1 <= n <= MAX_MEMBERS && value.fields[Known(MaxMembers)] == Str(Text(Decimal.Print(n)));
      PrintedLimitReadsBack(n);
      assert DEFAULT_POLICY + value.fields == value.fields;
      assert value.fields[Known(MaxMembers) := Str(Text(Decimal.Print(n)))] == value.fields;
    }
  }

  /** `_validate_profile`. */
  function ValidateProfile(value: Json): Result<Json, PolicyError> {
    if !value.Obj? then Err(ProfileRequired)
    else
      var profile := map[Known(Discoverability) := Str(Known(PublicName))] + value.fields;
      if profile[Known(Discoverability)] in [Str(Known(PublicName)), Str(Known(ListedName)), Str(Known(PrivateName))] then Ok(Obj(profile))
      else Err(DiscoverabilityInvalid)
  }

  lemma ProfileValidationIsAProjection(value: Json)
    ensures ValidateProfile(value).Ok? ==>
              ValidateProfile(ValidateProfile(value).value) == ValidateProfile(value)
    ensures ValidateProfile(value).Ok? && Known(Discoverability) in value.fields ==> ValidateProfile(value) == Ok(value)
  {
    if value.Obj? {
      var profile := map[Known(Discoverability) := Str(Known(PublicName))] + value.fields;
      assert map[Known(Discoverability) := Str(Known(PublicName))] + profile == profile;
      if Known(Discoverability) in value.fields {
        assert profile == value.fields;
      }
    }
  }

  /** The role a stored policy demands; reading a missing entry raises. */
  function Demanded(policy: Json, permission: Name): Option<Role> {
    var permissions := Get(Fields(policy), Known(Permissions));
    RoleNamed(Get(Fields(permissions), permission))
  }

  function MemberLimit(policy: Json): Option<int> {
    AsInt(Get(Fields(policy), Known(MaxMembers)))
  }

  predicate OpenJoin(policy: Json) {
    Get(Fields(policy), Known(AdmissionMode)) == Str(Known(OpenJoinMode))
  }

  lemma StoredPolicyIsReadable(policy: Json, permission: Name)
    requires ValidPolicy(policy)
    ensures MemberLimit(policy).Some? && 1 <= MemberLimit(policy).value <= MAX_MEMBERS
    ensures Demanded(policy, permission).Some? <==> permission in PERMISSION_KEYS
  {
    var n: nat :| 1 <= n <= MAX_MEMBERS && policy.fields[Known(MaxMembers)] == Str(Text(Decimal.Print(n)));
    PrintedLimitReadsBack(n);
  }

  /** What a document gives for a key, or what stands for it when it gives nothing. */
  function Given(value: Json, word: Word, default: Json): Json {
    if value.Obj? && Known(word) in value.fields then value.fields[Known(word)] else default
  }

  /** Sending takes a member, adding, removing and the profile an admin, the policy the owner. */
  const DEFAULT_PERMISSIONS := Obj(map[
    Known(SendPermission) := Str(Known(MemberName)), Known(AddPermission) := Str(Known(AdminName)),
    Known(RemovePermission) := Str(Known(AdminName)),
    Known(UpdateProfilePermission) := Str(Known(AdminName)), Known(UpdatePolicyPermission) := Str(Known(OwnerName))])

  ghost predicate FivePermissions(permissions: Json) {
    && permissions.Obj?
    && (forall k :: k in permissions.fields <==>
          k in {Known(SendPermission), Known(AddPermission), Known(RemovePermission), Known(UpdateProfilePermission), Known(UpdatePolicyPermission)})
    && (forall k :: k in permissions.fields ==> permissions.fields[k] in {Str(Known(MemberName)), Str(Known(AdminName)), Str(Known(OwnerName))})
  }

  /** A policy validates if and only if it gives nothing but the six known entries, each as it may be. */
  lemma PolicyValidatesIff(value: Json)
    ensures ValidatePolicy(value).Ok? <==>
              && value.Obj?
              && (forall k :: k in value.fields ==>
                    k in {Known(MessageSecurityProfile), Known(BootstrapSecurityProfile), Known(AdmissionMode),
                          Known(Permissions), Known(AttachmentsAllowed), Known(MaxMembers)})
              && Given(value, MessageSecurityProfile, Str(Known(TransportProtected))) == Str(Known(TransportProtected))
              && Given(value, BootstrapSecurityProfile, Str(Known(TransportProtected))) == Str(Known(TransportProtected))
              && Given(value, AdmissionMode, Str(Known(OpenJoinMode))) in {Str(Known(OpenJoinMode)), Str(Known(AdminAddMode))}
              && FivePermissions(Given(value, Permissions, DEFAULT_PERMISSIONS))
              && Given(value, AttachmentsAllowed, Bool(false)).Bool?
              && var limit := AsInt(Given(value, MaxMembers, Num(100))); limit.Some? && 1 <= limit.value <= 100
  {
    hide AsInt, FivePermissions;
    DefaultLimit();
    if value.Obj? {
      var policy := DEFAULT_POLICY + value.fields;
      assert policy[Known(Permissions)] == Given(value, Permissions, DEFAULT_PERMISSIONS);
      FiveIff(policy[Known(Permissions)]);
    }
  }

  lemma FiveIff(permissions: Json)
    ensures FivePermissions(permissions) <==> permissions.Obj? && permissions.fields.Keys == PERMISSION_KEYS && PermissionRolesKnown(permissions)
  {
  }

  /**
   * What a valid policy gives is kept, the limit as canonical digits; what it leaves out is filled in:
   * transport security, open joining, the default permissions, no attachments and a hundred members.
   */
  lemma ValidatedPolicyIs(value: Json)
    requires ValidatePolicy(value).Ok?
    ensures AsInt(Given(value, MaxMembers, Num(100))).Some? && AsInt(Given(value, MaxMembers, Num(100))).value >= 0
    ensures var policy := ValidatePolicy(value).value;
            && policy.Obj? && policy.fields.Keys == POLICY_KEYS
            && policy.fields[Known(MessageSecurityProfile)] == policy.fields[Known(BootstrapSecurityProfile)] == Str(Known(TransportProtected))
            && policy.fields[Known(AdmissionMode)] == Given(value, AdmissionMode, Str(Known(OpenJoinMode)))
            && policy.fields[Known(Permissions)] == Given(value, Permissions, DEFAULT_PERMISSIONS)
            && policy.fields[Known(AttachmentsAllowed)] == Given(value, AttachmentsAllowed, Bool(false))
            && policy.fields[Known(MaxMembers)] == Str(Text(Decimal.Print(AsInt(Given(value, MaxMembers, Num(100))).value)))
  {
    hide AsInt, PermissionRolesKnown;
    DefaultLimit();
    assert ValidatePolicy(value).value.fields.Keys == POLICY_KEYS;
  }

  lemma DefaultLimit()
    ensures AsInt(Str(Text("100"))) == AsInt(Num(100)) == Some(100)
  {
    PrintedLimitReadsBack(100);
    assert Decimal.Print(1) == "1" && Decimal.Print(10) == "10" && Decimal.Print(100) == "100";
  }

  lemma SignedDigitsRead(digits: string, n: nat)
    requires digits != [] && Decimal.AllDigits(digits) && Decimal.Value(digits) == n
    ensures AsInt(Str(Text("+" + digits))) == Some(n)
    ensures AsInt(Str(Text("-" + digits))).Some? && AsInt(Str(Text("-" + digits))).value + n == 0
  {
    assert ("+" + digits)[1..] == digits && ("-" + digits)[1..] == digits;
  }

  /** A limit may be a number, a boolean, or digits with or without a sign. */
  lemma LimitsRead(n: nat)
    ensures AsInt(Num(n)) == AsInt(Str(Text(Decimal.Print(n)))) == AsInt(Str(Text("+" + Decimal.Print(n)))) == Some(n)
    ensures AsInt(Str(Text("-" + Decimal.Print(n)))).Some? && AsInt(Str(Text("-" + Decimal.Print(n)))).value + n == 0
    ensures AsInt(Bool(true)) == Some(1) && AsInt(Bool(false)) == Some(0)
    ensures AsInt(Str(Text(""))) == None && AsInt(Null) == None
  {
    hide Decimal.Print, Decimal.Value;
    PrintedLimitReadsBack(n);
    Decimal.PrintIsCanonical(n);
    SignedDigitsRead(Decimal.Print(n), n);
  }

  /** A profile validates if and only if it is an object whose discoverability, public by default, is one of three; all else is kept. */
  lemma ValidatedProfileMeans(value: Json)
    ensures ValidateProfile(value).Ok? <==>
              value.Obj? && Given(value, Discoverability, Str(Known(PublicName))) in {Str(Known(PublicName)), Str(Known(ListedName)), Str(Known(PrivateName))}
    ensures ValidateProfile(value).Ok? ==>
              && ValidateProfile(value).value.Obj?
              && ValidateProfile(value).value.fields
                 == value.fields[Known(Discoverability) := Given(value, Discoverability, Str(Known(PublicName)))]
  {
  }
}
