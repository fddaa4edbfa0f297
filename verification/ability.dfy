/** The curation-concerns permission rules. An ability accumulates `can`
    grants and action aliases; a request is allowed when some grant covers
    its action (directly or through an alias) and its subject (by class, or
    because the grant is on `:all`). Grants only ever add: there is no
    `cannot` in this rule set. */
module CurationConcernsAbility {

  type ClassName = string

  /** The actions this rule set names; any other action is `OtherAction`. */
  datatype Action =
    | Create | Discover | Show | Read | Edit | Update | Destroy
    | Collect | Versions
    | OtherAction(name: string)

  /** The subject of a grant: every subject (`:all`) or one class. */
  datatype Subject = AllSubjects | Klass(name: ClassName)

  /** One `can actions, subjects` grant. */
  datatype Rule = Rule(actions: set<Action>, subjects: set<Subject>)

  /** The parts of the current user that the rules look at. */
  datatype User = User(newRecord: bool)

  /** The named steps a host ability runs when it is built. */
  datatype AbilityLogic =
    | CurationConcernsPermissionsStep
    | EveryoneCanCreateStep
    | OtherStep(name: string)

  const AdminGroup: string := "admin"
  const ClassifyConcern: ClassName := "CurationConcerns::ClassifyConcern"
  const GenericFileClass: ClassName := "GenericFile"
  const CollectionClass: ClassName := "Collection"

  /** What an admin may do to every subject. */
  const AdminActions: set<Action> := {Create, Discover, Show, Read, Edit, Update, Destroy}

  /** The alias table after `alias_action alias, to: target`: granting
      `target` also grants `alias`. */
  function AddAlias(aliases: map<Action, set<Action>>, target: Action, alias: Action): (r: map<Action, set<Action>>)
    ensures r.Keys == aliases.Keys + {target}
    ensures alias in r[target]
    ensures forall a :: a in aliases ==> aliases[a] <= r[a]
    ensures forall a, b :: a in r && b in r[a] ==> (a == target && b == alias) || (a in aliases && b in aliases[a])
  {
    aliases[target := (if target in aliases then aliases[target] else {}) + {alias}]
  }

  /** True when granting `actions` grants `action`: it is one of them, or an
      alias of one of them. */
  predicate Covers(actions: set<Action>, aliases: map<Action, set<Action>>, action: Action)
  {
    action in actions || exists a :: a in actions && a in aliases && action in aliases[a]
  }

  /** True when the rule grants `action` on an object of class `subject`. */
  predicate Matches(r: Rule, aliases: map<Action, set<Action>>, action: Action, subject: ClassName)
  {
    Covers(r.actions, aliases, action) && (AllSubjects in r.subjects || Klass(subject) in r.subjects)
  }

  /** The union of the grants: some rule grants `action` on `subject`. */
  predicate Granted(rules: seq<Rule>, aliases: map<Action, set<Action>>, action: Action, subject: ClassName)
  {
    exists i :: 0 <= i < |rules| && Matches(rules[i], aliases, action, subject)
  }

  /** True when no alias expands to `action`, so only a rule naming it grants it. */
  predicate NotAnAlias(aliases: map<Action, set<Action>>, action: Action)
  {
    forall a :: a in aliases ==> action !in aliases[a]
  }

  /** True when no alias is itself aliased, so one level of expansion
      reaches everything a recursive expansion would. */
  predicate NoAliasChains(aliases: map<Action, set<Action>>)
  {
    forall a, b :: a in aliases && b in aliases[a] ==> b !in aliases
  }

  /** The grants `curation_concerns_permissions` adds, in order. */
  function CurationConcernsRules(user: User, groups: seq<string>): seq<Rule>
  {
    (if !user.newRecord then [Rule({Create}, {Klass(ClassifyConcern)})] else [])
    + (if AdminGroup in groups then [Rule(AdminActions, {AllSubjects})] else [])
    + [Rule({Collect}, {AllSubjects})]
  }

  /** The grants `everyone_can_create_curation_concerns` adds, in order. */
  function EveryoneCanCreateRules(user: User, concerns: seq<ClassName>): seq<Rule>
  {
    if user.newRecord then []
    else
      [ Rule({Create}, {Klass(GenericFileClass)}),
        Rule({Create}, set c | c in concerns :: Klass(c)),
        Rule({Create}, {Klass(CollectionClass)}) ]
  }

  /** The alias table `curation_concerns_permissions` leaves on a fresh ability. */
  function CurationConcernsAliases(): (r: map<Action, set<Action>>)
    ensures r == map[Update := {Versions}]
    ensures NoAliasChains(r) && NotAnAlias(r, Update)
  {
    assert {} + {Versions} == {Versions};
    AddAlias(map[], Update, Versions)
  }

  /** Including the module appends its step and keeps the earlier ones. */
  function WithCurationConcerns(logic: seq<AbilityLogic>): (r: seq<AbilityLogic>)
    ensures |r| == |logic| + 1
    ensures r[..|logic|] == logic && r[|logic|] == CurationConcernsPermissionsStep
  {
    logic + [CurationConcernsPermissionsStep]
  }

  /** Grants are additive: appending rules grants the union. */
  lemma GrantedAppend(a: seq<Rule>, b: seq<Rule>, aliases: map<Action, set<Action>>, action: Action, subject: ClassName)
    ensures Granted(a + b, aliases, action, subject) <==>
            Granted(a, aliases, action, subject) || Granted(b, aliases, action, subject)
  {
    if Granted(a + b, aliases, action, subject) {
      var i :| 0 <= i < |a + b| && Matches((a + b)[i], aliases, action, subject);
      if i >= |a| {
        assert (a + b)[i] == b[i - |a|];
      }
    }
    if Granted(a, aliases, action, subject) {
      var i :| 0 <= i < |a| && Matches(a[i], aliases, action, subject);
      assert (a + b)[i] == a[i];
    }
    if Granted(b, aliases, action, subject) {
      var i :| 0 <= i < |b| && Matches(b[i], aliases, action, subject);
      assert (a + b)[|a| + i] == b[i];
    }
  }

  /** A rule in the list that matches makes the request granted. */
  lemma GrantedByRule(rules: seq<Rule>, k: nat, aliases: map<Action, set<Action>>, action: Action, subject: ClassName)
    requires k < |rules| && Matches(rules[k], aliases, action, subject)
    ensures Granted(rules, aliases, action, subject)
  {
  }

  /** A persisted user may create a ClassifyConcern, whatever came before. */
  lemma PersistedUserCreatesClassifyConcern(prior: seq<Rule>, user: User, groups: seq<string>, aliases: map<Action, set<Action>>)
    requires !user.newRecord
    ensures Granted(prior + CurationConcernsRules(user, groups), aliases, Create, ClassifyConcern)
  {
    var rs := CurationConcernsRules(user, groups);
    GrantedByRule(rs, 0, aliases, Create, ClassifyConcern);
    GrantedAppend(prior, rs, aliases, Create, ClassifyConcern);
  }

  /** For a new-record user no added grant names ClassifyConcern. */
  lemma NewRecordGetsNoClassifyConcernRule(user: User, groups: seq<string>)
    requires user.newRecord
    ensures forall r :: r in CurationConcernsRules(user, groups) ==> Klass(ClassifyConcern) !in r.subjects
  {
  }

  /** "Can version if they can edit": wherever `update` is granted, so is
      `versions`, once `versions` is an alias of `update` and `update` itself
      is nobody's alias. */
  lemma VersionsFollowUpdate(rules: seq<Rule>, aliases: map<Action, set<Action>>, subject: ClassName)
    requires Update in aliases && Versions in aliases[Update]
    requires NotAnAlias(aliases, Update)
    ensures Granted(rules, aliases, Update, subject) ==> Granted(rules, aliases, Versions, subject)
  {
    if Granted(rules, aliases, Update, subject) {
      var i :| 0 <= i < |rules| && Matches(rules[i], aliases, Update, subject);
      assert Update in rules[i].actions;
      assert Matches(rules[i], aliases, Versions, subject);
    }
  }

  /** After `curation_concerns_permissions`, `versions` is an alias of
      `update`, and the step never makes `update` an alias. */
  lemma CurationConcernsAliasesVersions(aliases: map<Action, set<Action>>)
    requires NotAnAlias(aliases, Update)
    ensures var r := AddAlias(aliases, Update, Versions);
      Update in r && Versions in r[Update] && NotAnAlias(r, Update)
  {
  }

  /** An admin may do each admin action to every subject. */
  lemma AdminMayDoEverything(prior: seq<Rule>, user: User, groups: seq<string>, aliases: map<Action, set<Action>>,
                             action: Action, subject: ClassName)
    requires AdminGroup in groups && action in AdminActions
    ensures Granted(prior + CurationConcernsRules(user, groups), aliases, action, subject)
  {
    var rs := CurationConcernsRules(user, groups);
    var k := if user.newRecord then 0 else 1;
    assert rs[k] == Rule(AdminActions, {AllSubjects});
    GrantedByRule(rs, k, aliases, action, subject);
    GrantedAppend(prior, rs, aliases, action, subject);
  }

  /** Every user, new or persisted, admin or not, may collect every subject. */
  lemma EveryoneMayCollect(prior: seq<Rule>, user: User, groups: seq<string>, aliases: map<Action, set<Action>>,
                           subject: ClassName)
    ensures Granted(prior + CurationConcernsRules(user, groups), aliases, Collect, subject)
  {
    var rs := CurationConcernsRules(user, groups);
    GrantedByRule(rs, |rs| - 1, aliases, Collect, subject);
    GrantedAppend(prior, rs, aliases, Collect, subject);
  }

  /** For a non-admin the step grants exactly `collect` on everything and,
      for a persisted user, `create` on ClassifyConcern; nothing else. */
  lemma NonAdminGrantsOnly(user: User, groups: seq<string>, action: Action, subject: ClassName)
    requires AdminGroup !in groups
    ensures Granted(CurationConcernsRules(user, groups), CurationConcernsAliases(), action, subject) <==>
            action == Collect || (!user.newRecord && action == Create && subject == ClassifyConcern)
  {
    var rs := CurationConcernsRules(user, groups);
    var al := CurationConcernsAliases();
    if Granted(rs, al, action, subject) {
      var i :| 0 <= i < |rs| && Matches(rs[i], al, action, subject);
      assert rs[i] in rs;
    }
    if action == Collect {
      GrantedByRule(rs, |rs| - 1, al, action, subject);
    } else if !user.newRecord && action == Create && subject == ClassifyConcern {
      GrantedByRule(rs, 0, al, action, subject);
    }
  }

  /** For a new-record user `everyone_can_create_curation_concerns` changes
      no decision. */
  lemma EveryoneCanCreateNothingForNewRecord(prior: seq<Rule>, user: User, concerns: seq<ClassName>,
                                             aliases: map<Action, set<Action>>, action: Action, subject: ClassName)
    requires user.newRecord
    ensures Granted(prior + EveryoneCanCreateRules(user, concerns), aliases, action, subject) <==>
            Granted(prior, aliases, action, subject)
  {
    assert prior + EveryoneCanCreateRules(user, concerns) == prior;
  }

  /** A persisted user may create generic files, every configured curation
      concern and collections. */
  lemma EveryoneCanCreateForPersisted(prior: seq<Rule>, user: User, concerns: seq<ClassName>,
                                      aliases: map<Action, set<Action>>)
    requires !user.newRecord
    ensures Granted(prior + EveryoneCanCreateRules(user, concerns), aliases, Create, GenericFileClass)
    ensures Granted(prior + EveryoneCanCreateRules(user, concerns), aliases, Create, CollectionClass)
    ensures forall c :: c in concerns ==> Granted(prior + EveryoneCanCreateRules(user, concerns), aliases, Create, c)
  {
    var rs := EveryoneCanCreateRules(user, concerns);
    GrantedByRule(rs, 0, aliases, Create, GenericFileClass);
    GrantedAppend(prior, rs, aliases, Create, GenericFileClass);
    GrantedByRule(rs, 2, aliases, Create, CollectionClass);
    GrantedAppend(prior, rs, aliases, Create, CollectionClass);
    forall c | c in concerns
      ensures Granted(prior + rs, aliases, Create, c)
    {
      assert Klass(c) in rs[1].subjects;
      GrantedByRule(rs, 1, aliases, Create, c);
      GrantedAppend(prior, rs, aliases, Create, c);
    }
  }

  /** The host ability class: the list of logic steps run when an ability is built. */
  class AbilityClass {
    var abilityLogic: seq<AbilityLogic>

    constructor (logic: seq<AbilityLogic>)
      ensures abilityLogic == logic
    {
      abilityLogic := logic;
    }

    /** Including the module registers `curation_concerns_permissions`. */
    method IncludeCurationConcerns()
      modifies this
      ensures abilityLogic == WithCurationConcerns(old(abilityLogic))
    {
      abilityLogic := abilityLogic + [CurationConcernsPermissionsStep];
    }
  }

  /** An ability for one user: the grants and aliases accumulated so far. */
  class Ability {
    const currentUser: User
    const userGroups: seq<string>
    var rules: seq<Rule>
    var aliases: map<Action, set<Action>>

    constructor (currentUser: User, userGroups: seq<string>)
      ensures this.currentUser == currentUser && this.userGroups == userGroups
      ensures rules == [] && aliases == map[]
    {
      this.currentUser := currentUser;
      this.userGroups := userGroups;
      rules := [];
      aliases := map[];
    }

    /** The decision this ability gives: may the user do `action` to `subject`? */
    predicate Allows(action: Action, subject: ClassName)
      reads this
    {
      Granted(rules, aliases, action, subject)
    }

    /** `can actions, subjects`: add one grant. */
    method Can(actions: set<Action>, subjects: set<Subject>)
      modifies this
      ensures rules == old(rules) + [Rule(actions, subjects)]
      ensures aliases == old(aliases)
    {
      rules := rules + [Rule(actions, subjects)];
    }

    /** `alias_action alias, to: target`: granting `target` also grants `alias`. */
    method AliasAction(alias: Action, target: Action)
      modifies this
      ensures aliases == AddAlias(old(aliases), target, alias)
      ensures rules == old(rules)
    {
      aliases := AddAlias(aliases, target, alias);
    }

    method CurationConcernsPermissions()
      modifies this
      ensures rules == old(rules) + CurationConcernsRules(currentUser, userGroups)
      ensures aliases == AddAlias(old(aliases), Update, Versions)
      ensures !currentUser.newRecord ==> Allows(Create, ClassifyConcern)
      ensures AdminGroup in userGroups ==> forall a, s :: a in AdminActions ==> Allows(a, s)
      ensures forall s :: Allows(Collect, s)
    {
      ghost var prior := rules;
      if !currentUser.newRecord {
        Can({Create}, {Klass(ClassifyConcern)});
      }
      AliasAction(Versions, Update);
      if AdminGroup in userGroups {
        Can(AdminActions, {AllSubjects});
      }
      Can({Collect}, {AllSubjects});
      assert rules == prior + CurationConcernsRules(currentUser, userGroups);
      if !currentUser.newRecord {
        PersistedUserCreatesClassifyConcern(prior, currentUser, userGroups, aliases);
      }
      forall a, s | AdminGroup in userGroups && a in AdminActions
        ensures Allows(a, s)
      {
        AdminMayDoEverything(prior, currentUser, userGroups, aliases, a, s);
      }
      forall s
        ensures Allows(Collect, s)
      {
        EveryoneMayCollect(prior, currentUser, userGroups, aliases, s);
      }
    }

    method EveryoneCanCreateCurationConcerns(concerns: seq<ClassName>)
      modifies this
      ensures rules == old(rules) + EveryoneCanCreateRules(currentUser, concerns)
      ensures aliases == old(aliases)
      ensures !currentUser.newRecord ==>
        Allows(Create, GenericFileClass) && Allows(Create, CollectionClass) &&
        forall c :: c in concerns ==> Allows(Create, c)
    {
      if currentUser.newRecord {
        return;
      }
      ghost var prior := rules;
      Can({Create}, {Klass(GenericFileClass)});
      Can({Create}, set c | c in concerns :: Klass(c));
      Can({Create}, {Klass(CollectionClass)});
      EveryoneCanCreateForPersisted(prior, currentUser, concerns, aliases);
    }
  }
}
