/**
 * Specialists and their roles. `FromConfig` selects, in declaration order, the roles
 * whose value the configured `SPECIALIST_ROLES` list names.
 */
module Specialists {
  import opened Wrappers
  import opened Dates
  import opened Seqs

  datatype Role = Developer | QA | Designer | ProjectManager | DevOps

  /** The string value of each role. */
  function RoleValue(r: Role): string {
    match r
    case Developer => "Developer"
    case QA => "QA"
    case Designer => "Designer"
    case ProjectManager => "Project Manager"
    case DevOps => "DevOps"
  }

  /** The roles in declaration order, as iterating the enumeration yields them. */
  const AllRoles: seq<Role> := [Developer, QA, Designer, ProjectManager, DevOps]

  /** The default value of the `SPECIALIST_ROLES` setting. */
  const DefaultSpecialistRoles: seq<string> := ["Developer", "QA", "Designer", "Project Manager", "DevOps"]

  datatype Specialist = Specialist(
    id: string,
    fullName: string,
    email: string,
    role: Role,
    hourlyRate: real,
    active: bool,
    hireDate: DateTime,
    leaveDate: Option<DateTime>)

  function SpecialistId(s: Specialist): string {
    s.id
  }

  lemma AllRolesListsEachRoleOnce()
    ensures forall r: Role :: r in AllRoles
    ensures NoDuplicates(AllRoles)
  {
    forall r: Role ensures r in AllRoles {
      match r
      case Developer => assert AllRoles[0] == r;
      case QA => assert AllRoles[1] == r;
      case Designer => assert AllRoles[2] == r;
      case ProjectManager => assert AllRoles[3] == r;
      case DevOps => assert AllRoles[4] == r;
    }
  }

  /** The comprehension's condition: the role's value is configured. */
  function Configured(specialistRoles: seq<string>): Role -> bool {
    r => RoleValue(r) in specialistRoles
  }

  /** A role is kept by the comprehension exactly when its value is configured. */
  lemma ConfiguredMembership(specialistRoles: seq<string>)
    ensures forall role: Role :: role in Filter(AllRoles, Configured(specialistRoles)) <==> RoleValue(role) in specialistRoles
  {
    AllRolesListsEachRoleOnce();
    var r := Filter(AllRoles, Configured(specialistRoles));
    forall role: Role | role in r ensures RoleValue(role) in specialistRoles {
      var i :| 0 <= i < |r| && r[i] == role;
    }
    forall role: Role | RoleValue(role) in specialistRoles ensures role in r {
      var i :| 0 <= i < |AllRoles| && AllRoles[i] == role;
    }
  }

  /** `SpecialistRole.from_config`, with the setting passed in. */
  function FromConfig(specialistRoles: seq<string>): (r: seq<Role>)
    ensures forall role: Role :: role in r <==> RoleValue(role) in specialistRoles
    ensures IsSubsequence(r, AllRoles)
    ensures NoDuplicates(r) && |r| <= |AllRoles|
  {
    AllRolesListsEachRoleOnce();
    FilterIsSubsequence(AllRoles, Configured(specialistRoles));
    FilterNoDuplicates(AllRoles, Configured(specialistRoles));
    ConfiguredMembership(specialistRoles);
    Filter(AllRoles, Configured(specialistRoles))
  }

  /**
   * Only which role values the setting names matters: their order, repetitions and
   * any strings that name no role are ignored.
   */
  lemma {:induction false} FromConfigDependsOnlyOnRoleValues(c1: seq<string>, c2: seq<string>)
    requires forall role: Role :: RoleValue(role) in c1 <==> RoleValue(role) in c2
    ensures FromConfig(c1) == FromConfig(c2)
  {
    FilterExtensional(AllRoles, Configured(c1), Configured(c2));
  }

  /** A configured string that names no role changes nothing. */
  lemma FromConfigIgnoresUnknown(specialistRoles: seq<string>, unknown: string)
    requires forall role: Role :: RoleValue(role) != unknown
    ensures FromConfig(specialistRoles + [unknown]) == FromConfig(specialistRoles)
  {
    FromConfigDependsOnlyOnRoleValues(specialistRoles + [unknown], specialistRoles);
  }

  /** The configuration ["Developer", "QA"] yields exactly those two roles, in order. */
  lemma FromConfigDeveloperAndQA()
    ensures FromConfig(["Developer", "QA"]) == [Developer, QA]
  {
    var c := Configured(["Developer", "QA"]);
    assert !c(DevOps) && !c(ProjectManager) && !c(Designer) && c(QA) && c(Developer);
    assert Filter([DevOps], c) == [];
    assert Filter([ProjectManager, DevOps], c) == [];
    assert Filter([Designer, ProjectManager, DevOps], c) == [];
    assert Filter([QA, Designer, ProjectManager, DevOps], c) == [QA];
  }

  /** The default setting selects every role. */
  lemma FromConfigDefault()
    ensures FromConfig(DefaultSpecialistRoles) == AllRoles
  {
    FilterKeepsAll(AllRoles, Configured(DefaultSpecialistRoles));
  }
}
