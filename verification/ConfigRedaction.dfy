/**
 Redaction of an exported config: which paths it blanks, and that it touches
 nothing else.
 */
module ConfigRedaction {
  import opened Wrappers
  import opened AppSettings

  const PLACEHOLDER := "<redacted>"

  // ---- Paths ----------------------------------------------------------------

  datatype Step = Key(name: string) | Index(i: nat)

  /** The value at the end of a path, if the path exists. */
  function At(j: Json, path: seq<Step>): Option<Json>
    decreases |path|
  {
    if path == [] then Some(j)
    else
      var child := Child(j, path[0]);
      if child.None? then None else At(child.value, path[1..])
  }

  function Child(j: Json, step: Step): Option<Json> {
    if step.Key? then
      if j.Obj? && step.name in j.fields then Some(j.fields[step.name]) else None
    else
      if j.Arr? && step.i < |j.items| then Some(j.items[step.i]) else None
  }

  /** What a value is without its children: a scalar, a list's length or an object's keys. */
  datatype Head = Scalar(value: Json) | ListOf(count: nat) | ObjectOf(keys: set<string>)

  function HeadOf(j: Json): Head {
    match j
    case Arr(items) => ListOf(|items|)
    case Obj(fields) => ObjectOf(fields.Keys)
    case _ => Scalar(j)
  }

  // ---- What redaction means -------------------------------------------------

  /** Where a value stands relative to the two secrets. */
  datatype Place = Config | Inbounds | Inbound | Users | User | Experimental | Clash | Secret | Elsewhere

  function Next(place: Place, step: Step): Place {
    match place
    case Config =>
      if step == Key("inbounds") then Inbounds else if step == Key("experimental") then Experimental else Elsewhere
    case Inbounds => if step.Index? then Inbound else Elsewhere
    case Inbound => if step == Key("users") then Users else Elsewhere
    case Users => if step.Index? then User else Elsewhere
    case User => if step == Key("password") then Secret else Elsewhere
    case Experimental => if step == Key("clash_api") then Clash else Elsewhere
    case Clash => if step == Key("secret") then Secret else Elsewhere
    case Secret => Secret
    case Elsewhere => Elsewhere
  }

  function PlaceAfter(place: Place, path: seq<Step>): Place
    decreases |path|
  {
    if path == [] then place else PlaceAfter(Next(place, path[0]), path[1..])
  }

  function Redacted(place: Place, j: Json): Json
    decreases j
  {
    if place == Secret then Str(PLACEHOLDER)
    else if place == Elsewhere then j
    else
      match j
      case Arr(items) => Arr(seq(|items|, k requires 0 <= k < |items| => Redacted(Next(place, Index(k)), items[k])))
      case Obj(fields) => Obj(map key | key in fields :: Redacted(Next(place, Key(key)), fields[key]))
      case _ => j
  }

  // ---- Properties -----------------------------------------------------------

  lemma ChildOfRedacted(place: Place, j: Json, step: Step)
    requires place != Secret
    ensures var child := Child(j, step);
            Child(Redacted(place, j), step) == if child.None? then None else Some(Redacted(Next(place, step), child.value))
  {
  }

  lemma {:induction false} SecretStays(path: seq<Step>)
    ensures PlaceAfter(Secret, path) == Secret
    decreases |path|
  {
    if path != [] { SecretStays(path[1..]); }
  }

  /** Along a path that has not passed a secret, redaction commutes with looking up. */
  lemma {:induction false} AtRedacted(place: Place, j: Json, path: seq<Step>)
    requires path == [] || PlaceAfter(place, path[..|path| - 1]) != Secret
    ensures var before := At(j, path);
            At(Redacted(place, j), path) ==
            if before.None? then None else Some(Redacted(PlaceAfter(place, path), before.value))
    decreases |path|
  {
    if path != [] {
      if place == Secret { SecretStays(path[..|path| - 1]); }
      ChildOfRedacted(place, j, path[0]);
      var child, rest := Child(j, path[0]), path[1..];
      if rest != [] { assert path[..|path| - 1][1..] == rest[..|rest| - 1]; }
      if child.Some? { AtRedacted(Next(place, path[0]), child.value, rest); }
    }
  }

  predicate IsInboundPassword(path: seq<Step>) {
    && |path| == 5
    && path[0] == Key("inbounds") && path[1].Index?
    && path[2] == Key("users") && path[3].Index? && path[4] == Key("password")
  }

  const CLASH_SECRET := [Key("experimental"), Key("clash_api"), Key("secret")]

  /** The path of a secret: a user's password in any inbound, or the clash API's secret. */
  predicate IsSecret(path: seq<Step>) {
    IsInboundPassword(path) || path == CLASH_SECRET
  }

  function PasswordPath(i: nat, k: nat): seq<Step> {
    [Key("inbounds"), Index(i), Key("users"), Index(k), Key("password")]
  }

  lemma AtCons(j: Json, step: Step, rest: seq<Step>)
    ensures At(j, [step] + rest) == if Child(j, step).None? then None else At(Child(j, step).value, rest)
  {
    assert ([step] + rest)[1..] == rest;
  }

  /** Both kinds of secret are secrets wherever they stand, and a password's path leads to the password. */
  lemma SecretsAreReached(config: map<string, Json>, i: nat, k: nat, inbounds: seq<Json>, inbound: map<string, Json>,
                          users: seq<Json>, user: map<string, Json>)
    requires "inbounds" in config && config["inbounds"] == Arr(inbounds) && i < |inbounds| && inbounds[i] == Obj(inbound)
    requires "users" in inbound && inbound["users"] == Arr(users) && k < |users| && users[k] == Obj(user)
    ensures IsSecret(PasswordPath(i, k)) && IsSecret([Key("experimental"), Key("clash_api"), Key("secret")])
    ensures At(Obj(config), PasswordPath(i, k)) == if "password" in user then Some(user["password"]) else None
  {
    assert PasswordPath(i, k)
        == [Key("inbounds")] + ([Index(i)] + ([Key("users")] + ([Index(k)] + ([Key("password")] + []))));
    AtCons(Obj(config), Key("inbounds"), [Index(i)] + ([Key("users")] + ([Index(k)] + ([Key("password")] + []))));
    AtCons(Arr(inbounds), Index(i), [Key("users")] + ([Index(k)] + ([Key("password")] + [])));
    AtCons(Obj(inbound), Key("users"), [Index(k)] + ([Key("password")] + []));
    AtCons(Arr(users), Index(k), [Key("password")] + []);
    AtCons(Obj(user), Key("password"), []);
  }

  /** The path runs into, or through, a secret. */
  predicate Reaches(path: seq<Step>) {
    (|path| >= 5 && IsInboundPassword(path[..5])) || (|path| >= 3 && path[..3] == CLASH_SECRET)
  }

  lemma {:induction false} ElsewhereStays(path: seq<Step>)
    ensures PlaceAfter(Elsewhere, path) == Elsewhere
    decreases |path|
  {
    if path != [] { ElsewhereStays(path[1..]); }
  }

  predicate UserReaches(path: seq<Step>) { path != [] && path[0] == Key("password") }

  predicate UsersReach(path: seq<Step>) { path != [] && path[0].Index? && UserReaches(path[1..]) }

  predicate InboundReaches(path: seq<Step>) { path != [] && path[0] == Key("users") && UsersReach(path[1..]) }

  predicate InboundsReach(path: seq<Step>) { path != [] && path[0].Index? && InboundReaches(path[1..]) }

  predicate ClashReaches(path: seq<Step>) { path != [] && path[0] == Key("secret") }

  predicate ExperimentalReaches(path: seq<Step>) { path != [] && path[0] == Key("clash_api") && ClashReaches(path[1..]) }

  lemma PlaceReaches(place: Place, path: seq<Step>)
    ensures place == User ==> (PlaceAfter(place, path) == Secret <==> UserReaches(path))
    ensures place == Clash ==> (PlaceAfter(place, path) == Secret <==> ClashReaches(path))
  {
    if path != [] {
      SecretStays(path[1..]);
      ElsewhereStays(path[1..]);
    }
  }

  lemma ListReaches(place: Place, path: seq<Step>)
    ensures place == Users ==> (PlaceAfter(place, path) == Secret <==> UsersReach(path))
    ensures place == Experimental ==> (PlaceAfter(place, path) == Secret <==> ExperimentalReaches(path))
  {
    if path != [] {
      PlaceReaches(Next(place, path[0]), path[1..]);
      ElsewhereStays(path[1..]);
    }
  }

  lemma InboundPathReaches(path: seq<Step>)
    ensures PlaceAfter(Inbound, path) == Secret <==> InboundReaches(path)
  {
    if path != [] {
      ListReaches(Users, path[1..]);
      ElsewhereStays(path[1..]);
    }
  }

  lemma InboundsPathReaches(path: seq<Step>)
    ensures PlaceAfter(Inbounds, path) == Secret <==> InboundsReach(path)
  {
    if path != [] {
      InboundPathReaches(path[1..]);
      ElsewhereStays(path[1..]);
    }
  }

  lemma ReachesByParts(path: seq<Step>)
    requires path != []
    ensures path[0] == Key("inbounds") ==> (Reaches(path) <==> InboundsReach(path[1..]))
    ensures path[0] == Key("experimental") ==> (Reaches(path) <==> ExperimentalReaches(path[1..]))
  {
    if |path| >= 3 { assert path[..3] == [path[0], path[1], path[2]]; }
    if |path| >= 5 { assert path[..5] == [path[0], path[1], path[2], path[3], path[4]]; }
    var rest := path[1..];
    if |rest| >= 2 { assert rest[1..] == path[2..]; }
    if |rest| >= 3 { assert path[2..][1..] == path[3..]; }
    if |rest| >= 4 { assert path[3..][1..] == path[4..]; }
  }

  lemma SecretPlaces(path: seq<Step>)
    ensures PlaceAfter(Config, path) == Secret <==> Reaches(path)
  {
    if path != [] {
      ReachesByParts(path);
      InboundsPathReaches(path[1..]);
      ListReaches(Experimental, path[1..]);
      ElsewhereStays(path[1..]);
    }
  }

  lemma OnlyAtTheEnd(path: seq<Step>)
    requires path != [] && (IsSecret(path) || !Reaches(path))
    ensures !Reaches(path[..|path| - 1])
    ensures IsSecret(path) ==> Reaches(path)
  {
    var shorter := path[..|path| - 1];
    if |shorter| >= 5 { assert shorter[..5] == path[..5]; }
    if |shorter| >= 3 { assert shorter[..3] == path[..3]; }
    if IsSecret(path) { assert path[..|path|] == path; }
    if IsInboundPassword(path) { assert path[..3][0] == path[0] != CLASH_SECRET[0]; }
  }

  /**
   Redaction is exact, at every path of every config: a secret that is there
   becomes the placeholder, and along any path that meets no secret the value
   keeps its scalar, its list length or its set of keys.
   */
  lemma {:induction false} RedactionIsExact(config: map<string, Json>, path: seq<Step>)
    ensures var before, after := At(Obj(config), path), At(Redacted(Config, Obj(config)), path);
            && (IsSecret(path) ==> after == if before.Some? then Some(Str(PLACEHOLDER)) else None)
            && (!Reaches(path) ==>
                  (before.Some? <==> after.Some?) && (before.Some? ==> HeadOf(before.value) == HeadOf(after.value)))
  {
    if IsSecret(path) || !Reaches(path) {
      SecretPlaces(path);
      if path != [] {
        OnlyAtTheEnd(path);
        SecretPlaces(path[..|path| - 1]);
      }
      AtRedacted(Config, Obj(config), path);
    }
  }

  lemma SameMap<K, V>(a: map<K, V>, b: map<K, V>)
    requires a.Keys == b.Keys && forall k :: k in a ==> a[k] == b[k]
    ensures a == b
  {
  }

  /** Nobody who reads the redacted values can tell them apart. */
  predicate LookAlike(place: Place, a: Json, b: Json) {
    Redacted(place, a) == Redacted(place, b)
  }

  lemma SameItems(place: Place, a: seq<Json>, b: seq<Json>)
    requires place != Secret && place != Elsewhere && |a| == |b|
    requires forall k :: 0 <= k < |a| ==> LookAlike(Next(place, Index(k)), a[k], b[k])
    ensures LookAlike(place, Arr(a), Arr(b))
  {
    var left, right := Redacted(place, Arr(a)).items, Redacted(place, Arr(b)).items;
    assert |left| == |a| && |right| == |b|;
    forall k | 0 <= k < |a| ensures left[k] == right[k] {
      assert LookAlike(Next(place, Index(k)), a[k], b[k]);
    }
  }

  lemma SameField(place: Place, a: map<string, Json>, b: map<string, Json>, k: string)
    requires place != Secret && place != Elsewhere && k in a && k in b && LookAlike(Next(place, Key(k)), a[k], b[k])
    ensures var left, right := Redacted(place, Obj(a)), Redacted(place, Obj(b));
            left.Obj? && right.Obj? && k in left.fields && k in right.fields && left.fields[k] == right.fields[k]
  {
    ChildOfRedacted(place, Obj(a), Key(k));
    ChildOfRedacted(place, Obj(b), Key(k));
  }

  lemma SameKeys(place: Place, fields: map<string, Json>)
    requires place != Secret
    ensures Redacted(place, Obj(fields)).Obj? && Redacted(place, Obj(fields)).fields.Keys == fields.Keys
  {
  }

  lemma SameFields(place: Place, a: map<string, Json>, b: map<string, Json>)
    requires place != Secret && place != Elsewhere && a.Keys == b.Keys
    requires forall k :: k in a ==> LookAlike(Next(place, Key(k)), a[k], b[k])
    ensures LookAlike(place, Obj(a), Obj(b))
  {
    SameKeys(place, a);
    SameKeys(place, b);
    forall k | k in a
      ensures Redacted(place, Obj(a)).fields[k] == Redacted(place, Obj(b)).fields[k]
    {
      SameField(place, a, b, k);
    }
    SameMap(Redacted(place, Obj(a)).fields, Redacted(place, Obj(b)).fields);
  }

  /** Exchanging one entry for one that looks alike goes unnoticed. */
  lemma OneDifference(place: Place, fields: map<string, Json>, key: string, x: Json, y: Json)
    requires place != Secret && place != Elsewhere && LookAlike(Next(place, Key(key)), x, y)
    ensures LookAlike(place, Obj(fields[key := x]), Obj(fields[key := y]))
  {
    SameFields(place, fields[key := x], fields[key := y]);
  }

  /** A second redaction changes nothing. */
  lemma {:induction false} RedactingTwice(place: Place, j: Json)
    ensures LookAlike(place, Redacted(place, j), j)
    decreases j
  {
    if place != Secret && place != Elsewhere {
      if j.Arr? {
        forall k | 0 <= k < |j.items| { RedactingTwice(Next(place, Index(k)), j.items[k]); }
        SameItems(place, Redacted(place, j).items, j.items);
      } else if j.Obj? {
        forall key | key in j.fields { RedactingTwice(Next(place, Key(key)), j.fields[key]); }
        SameFields(place, Redacted(place, j).fields, j.fields);
      }
    }
  }

  // ---- The same, field by field ---------------------------------------------

  predicate HasObject(fields: map<string, Json>, key: string) { key in fields && fields[key].Obj? }

  predicate HasList(fields: map<string, Json>, key: string) { key in fields && fields[key].Arr? }

  predicate ObjectAt(items: seq<Json>, i: nat) { i < |items| && items[i].Obj? }

  /** The redacted value of an object's field. */
  lemma FieldOfRedacted(place: Place, fields: map<string, Json>, key: string)
    requires place != Secret && key in fields
    ensures var after := Redacted(place, Obj(fields));
            after.Obj? && after.fields.Keys == fields.Keys && after.fields[key] == Redacted(Next(place, Key(key)), fields[key])
  {
    SameKeys(place, fields);
    ChildOfRedacted(place, Obj(fields), Key(key));
  }

  lemma ItemOfRedacted(place: Place, items: seq<Json>, i: nat)
    requires place != Secret && i < |items|
    ensures var after := Redacted(place, Arr(items));
            after.Arr? && |after.items| == |items| && after.items[i] == Redacted(Next(place, Index(i)), items[i])
  {
    ChildOfRedacted(place, Arr(items), Index(i));
  }

  /** A user of an inbound loses the password, if there is one, and nothing else. */
  lemma UserAfter(user: map<string, Json>)
    ensures var after := Redacted(User, Obj(user));
            && after.Obj?
            && after.fields == if "password" in user then user["password" := Str("<redacted>")] else user
  {
    SameKeys(User, user);
    forall key | key in user
      ensures Redacted(User, Obj(user)).fields[key] == if key == "password" then Str("<redacted>") else user[key]
    {
      FieldOfRedacted(User, user, key);
    }
  }

  /** An inbound keeps every field but its users, and those in number and order. */
  lemma InboundAfter(inbound: map<string, Json>)
    ensures var after := Redacted(Inbound, Obj(inbound));
            && after.Obj? && after.fields.Keys == inbound.Keys
            && (forall key :: key in inbound && key != "users" ==> after.fields[key] == inbound[key])
            && (HasList(inbound, "users") ==>
                  && HasList(after.fields, "users") && |after.fields["users"].items| == |inbound["users"].items|
                  && forall k: nat :: ObjectAt(inbound["users"].items, k) ==>
                       after.fields["users"].items[k] == Redacted(User, inbound["users"].items[k]))
  {
    SameKeys(Inbound, inbound);
    forall key | key in inbound
      ensures Redacted(Inbound, Obj(inbound)).fields[key] == Redacted(Next(Inbound, Key(key)), inbound[key])
    {
      FieldOfRedacted(Inbound, inbound, key);
    }
    if HasList(inbound, "users") {
      var users := inbound["users"].items;
      forall k: nat | ObjectAt(users, k) ensures Redacted(Users, Arr(users)).items[k] == Redacted(User, users[k]) {
        ItemOfRedacted(Users, users, k);
      }
    }
  }

  /** The clash API loses its secret, if there is one, and nothing else. */
  lemma ClashAfter(clash: map<string, Json>)
    ensures var after := Redacted(Clash, Obj(clash));
            && after.Obj?
            && after.fields == if "secret" in clash then clash["secret" := Str("<redacted>")] else clash
  {
    SameKeys(Clash, clash);
    forall key | key in clash
      ensures Redacted(Clash, Obj(clash)).fields[key] == if key == "secret" then Str("<redacted>") else clash[key]
    {
      FieldOfRedacted(Clash, clash, key);
    }
  }

  /**
   Redaction field by field: the sections other than inbounds and experimental are
   untouched; every inbound is redacted in place, and so is the clash API.
   */
  lemma RedactionByField(config: map<string, Json>)
    ensures var after := Redacted(Config, Obj(config));
            && after.Obj? && after.fields.Keys == config.Keys
            && (forall key :: key in config && key !in {"inbounds", "experimental"} ==> after.fields[key] == config[key])
            && (HasList(config, "inbounds") ==>
                  && HasList(after.fields, "inbounds") && |after.fields["inbounds"].items| == |config["inbounds"].items|
                  && forall i: nat :: ObjectAt(config["inbounds"].items, i) ==>
                       after.fields["inbounds"].items[i] == Redacted(Inbound, config["inbounds"].items[i]))
            && (HasObject(config, "experimental") ==>
                  && HasObject(after.fields, "experimental")
                  && ExperimentalFits(config["experimental"].fields, after.fields["experimental"].fields))
  {
    SameKeys(Config, config);
    forall key | key in config
      ensures Redacted(Config, Obj(config)).fields[key] == Redacted(Next(Config, Key(key)), config[key])
    {
      FieldOfRedacted(Config, config, key);
    }
    if HasList(config, "inbounds") {
      var items := config["inbounds"].items;
      forall i: nat | ObjectAt(items, i) ensures Redacted(Inbounds, Arr(items)).items[i] == Redacted(Inbound, items[i]) {
        ItemOfRedacted(Inbounds, items, i);
      }
    }
    if HasObject(config, "experimental") { ExperimentalAfter(config["experimental"].fields); }
  }

  /** Only the clash API changes, as redacted. */
  predicate ExperimentalFits(before: map<string, Json>, after: map<string, Json>) {
    && after.Keys == before.Keys
    && (forall key :: key in before && key != "clash_api" ==> after[key] == before[key])
    && ("clash_api" in before ==> after["clash_api"] == Redacted(Clash, before["clash_api"]))
  }

  lemma ExperimentalAfter(experimental: map<string, Json>)
    ensures Redacted(Experimental, Obj(experimental)).Obj?
    ensures ExperimentalFits(experimental, Redacted(Experimental, Obj(experimental)).fields)
  {
    SameKeys(Experimental, experimental);
    forall key | key in experimental
      ensures Redacted(Experimental, Obj(experimental)).fields[key] == Redacted(Next(Experimental, Key(key)), experimental[key])
    {
      FieldOfRedacted(Experimental, experimental, key);
    }
  }

  // ---- The loops ------------------------------------------------------------

  /** Redacting an object whose only affected entry is `key` rewrites that entry. */
  lemma OneEntry(place: Place, fields: map<string, Json>, key: string)
    requires place != Secret && forall k :: k in fields && k != key ==> Next(place, Key(k)) == Elsewhere
    ensures Redacted(place, Obj(fields)) ==
            Obj(if key in fields then fields[key := Redacted(Next(place, Key(key)), fields[key])] else fields)
  {
    var expected := if key in fields then fields[key := Redacted(Next(place, Key(key)), fields[key])] else fields;
    SameKeys(place, fields);
    forall k | k in fields ensures Redacted(place, Obj(fields)).fields[k] == expected[k] {
      ChildOfRedacted(place, Obj(fields), Key(k));
    }
    SameMap(Redacted(place, Obj(fields)).fields, expected);
  }

  lemma TwoEntries(config: map<string, Json>, redacted: map<string, Json>)
    requires redacted.Keys == config.Keys
    requires forall k :: k in config && k != "inbounds" && k != "experimental" ==> redacted[k] == config[k]
    requires "inbounds" in config ==> redacted["inbounds"] == Redacted(Inbounds, config["inbounds"])
    requires "experimental" in config ==> redacted["experimental"] == Redacted(Experimental, config["experimental"])
    ensures Obj(redacted) == Redacted(Config, Obj(config))
  {
    assert redacted == Redacted(Config, Obj(config)).fields;
  }

  /** Where a list is expected, an object is left alone. */
  lemma NotAList(place: Place, j: Json)
    requires place in {Inbounds, Users} && !j.Arr?
    ensures Redacted(place, j) == j
  {
    if j.Obj? { assert Redacted(place, j).fields == j.fields; }
  }

  /** Where an object is expected, a list is left alone. */
  lemma NotAnObject(place: Place, j: Json)
    requires place in {Inbound, User, Experimental, Clash} && !j.Obj?
    ensures Redacted(place, j) == j
  {
    if j.Arr? { assert Redacted(place, j).items == j.items; }
  }

  method RedactUser(user: Json) returns (redacted: Json)
    ensures redacted == Redacted(User, user)
  {
    redacted := user;
    if user.Obj? {
      OneEntry(User, user.fields, "password");
      if "password" in user.fields { redacted := Obj(user.fields["password" := Str(PLACEHOLDER)]); }
    } else {
      NotAnObject(User, user);
    }
  }

  method RedactUsers(users: seq<Json>) returns (redacted: seq<Json>)
    ensures Arr(redacted) == Redacted(Users, Arr(users))
  {
    redacted := users;
    for i := 0 to |users|
      invariant |redacted| == |users|
      invariant forall k :: 0 <= k < i ==> redacted[k] == Redacted(User, users[k])
      invariant redacted[i..] == users[i..]
    {
      assert redacted[i] == redacted[i..][0] == users[i..][0];
      var user := RedactUser(redacted[i]);
      redacted := redacted[i := user];
    }
    assert Redacted(Users, Arr(users)).items == redacted;
  }

  method RedactInbound(inbound: Json) returns (redacted: Json)
    ensures redacted == Redacted(Inbound, inbound)
  {
    redacted := inbound;
    if inbound.Obj? {
      OneEntry(Inbound, inbound.fields, "users");
      if "users" in inbound.fields {
        var users := inbound.fields["users"];
        if users.Arr? {
          var blanked := RedactUsers(users.items);
          redacted := Obj(inbound.fields["users" := Arr(blanked)]);
        } else {
          NotAList(Users, users);
          assert inbound.fields["users" := users] == inbound.fields;
        }
      }
    } else {
      NotAnObject(Inbound, inbound);
    }
  }

  method RedactInbounds(inbounds: seq<Json>) returns (redacted: seq<Json>)
    ensures Arr(redacted) == Redacted(Inbounds, Arr(inbounds))
  {
    redacted := inbounds;
    for i := 0 to |inbounds|
      invariant |redacted| == |inbounds|
      invariant forall k :: 0 <= k < i ==> redacted[k] == Redacted(Inbound, inbounds[k])
      invariant redacted[i..] == inbounds[i..]
    {
      assert redacted[i] == redacted[i..][0] == inbounds[i..][0];
      var inbound := RedactInbound(redacted[i]);
      redacted := redacted[i := inbound];
    }
    assert Redacted(Inbounds, Arr(inbounds)).items == redacted;
  }

  method RedactExperimental(experimental: Json) returns (redacted: Json)
    ensures redacted == Redacted(Experimental, experimental)
  {
    redacted := experimental;
    if experimental.Obj? {
      var fields := experimental.fields;
      OneEntry(Experimental, fields, "clash_api");
      if "clash_api" in fields {
        var clash := fields["clash_api"];
        if clash.Obj? {
          OneEntry(Clash, clash.fields, "secret");
          if "secret" in clash.fields {
            redacted := Obj(fields["clash_api" := Obj(clash.fields["secret" := Str(PLACEHOLDER)])]);
          } else {
            assert fields["clash_api" := clash] == fields;
          }
        } else {
          NotAnObject(Clash, clash);
          assert fields["clash_api" := clash] == fields;
        }
      }
    } else {
      NotAnObject(Experimental, experimental);
    }
  }

  /** A config under construction, as the export screen holds it. */
  class ConfigMap {
    var entries: map<string, Json>

    constructor (config: map<string, Json>)
      ensures entries == config
    {
      entries := config;
    }

    method RedactInPlace()
      modifies this
      ensures Obj(entries) == Redacted(Config, Obj(old(entries)))
    {
      ghost var was := entries;
      if "inbounds" in entries {
        var inbounds := entries["inbounds"];
        if inbounds.Arr? {
          var blanked := RedactInbounds(inbounds.items);
          entries := entries["inbounds" := Arr(blanked)];
        } else {
          NotAList(Inbounds, inbounds);
        }
      }
      if "experimental" in entries {
        var experimental := RedactExperimental(entries["experimental"]);
        entries := entries["experimental" := experimental];
      }
      TwoEntries(was, entries);
    }
  }
}
