/** The team view: the organising roles, which the view owns, with an add
    form and a delete button. A new role's id is the clock reading at the
    time of the add, taken here as a parameter. */
module Team {
  import opened JsRuntime
  import opened Collections

  datatype TeamMember = TeamMember(id: int, role: string, description: string)

  function MemberId(m: TeamMember): int {
    m.id
  }

  /** The add form's draft. */
  datatype RoleDraft = RoleDraft(role: string, description: string)

  const EmptyRoleDraft := RoleDraft("", "")

  /** The nine roles the view starts with, ids 1 to 9. */
  const INITIAL_TEAM: seq<TeamMember> := [
    TeamMember(1, "Director General", "Supervisa todo, toma decisiones finales, relaciones institucionales de alto nivel."),
    TeamMember(2, "Coord. Logística", "Gestión del venue, proveedores, montaje, transporte, catering, equipo AV."),
    TeamMember(3, "Dir. Marketing", "Estrategia digital/offline, campañas, PR y medios."),
    TeamMember(4, "Coord. Ponentes", "Contacto speakers, diseño de agenda, materiales."),
    TeamMember(5, "Coord. Comercial", "Venta de paquetes de patrocinio, relación con auspiciantes."),
    TeamMember(6, "Coord. Alianzas", "Relación con universidades, colegios profesionales y gremios."),
    TeamMember(7, "Coord. Experiencia", "Registro, acreditación, kit de bienvenida, atención al público."),
    TeamMember(8, "Coord. Tecnología", "Plataforma de ticketing, app, streaming, Wi-Fi."),
    TeamMember(9, "Coord. Legal", "Permisos municipales, plan de contingencia, seguros.")
  ]

  /** A deleted role is gone and the others keep their order, when ids are unique. */
  lemma DeleteKeepsOthers(ms: seq<TeamMember>, i: int)
    requires 0 <= i < |ms| && UniqueKeys(ms, MemberId)
    ensures RemoveKey(ms, MemberId, ms[i].id) == ms[..i] + ms[i + 1..]
    ensures UniqueKeys(RemoveKey(ms, MemberId, ms[i].id), MemberId)
  {
    RemoveKeyAt(ms, MemberId, i);
    RemoveKeyKeepsUnique(ms, MemberId, ms[i].id);
  }

  /** A clock reading not already used as an id keeps ids unique. */
  lemma AddFreshKeepsUnique(ms: seq<TeamMember>, now: int, d: RoleDraft)
    requires UniqueKeys(ms, MemberId)
    requires forall i :: 0 <= i < |ms| ==> ms[i].id != now
    ensures UniqueKeys(ms + [TeamMember(now, d.role, d.description)], MemberId)
  {
    AppendFreshKeepsUnique(ms, TeamMember(now, d.role, d.description), MemberId);
  }

  class TeamView {
    var teamMembers: seq<TeamMember>
    var isAddingRole: bool
    var newRole: RoleDraft

    constructor ()
      ensures teamMembers == INITIAL_TEAM && !isAddingRole && newRole == EmptyRoleDraft
    {
      teamMembers := INITIAL_TEAM;
      isAddingRole := false;
      newRole := EmptyRoleDraft;
    }

    /** "Agregar Rol". */
    method OpenAdd()
      modifies this`isAddingRole
      ensures isAddingRole
    {
      isAddingRole := true;
    }

    /** The form's "Cancelar": the draft is kept. */
    method CloseAdd()
      modifies this`isAddingRole
      ensures !isAddingRole
    {
      isAddingRole := false;
    }

    method SetRole(v: string)
      modifies this`newRole
      ensures newRole == old(newRole).(role := v)
    {
      newRole := newRole.(role := v);
    }

    method SetDescription(v: string)
      modifies this`newRole
      ensures newRole == old(newRole).(description := v)
    {
      newRole := newRole.(description := v);
    }

    /** `handleAddRole`; `now` is `Date.now()`. */
    method HandleAddRole(now: int)
      modifies this
      ensures !(old(newRole).role != "" && old(newRole).description != "") ==>
        teamMembers == old(teamMembers) && isAddingRole == old(isAddingRole) && newRole == old(newRole)
      ensures old(newRole).role != "" && old(newRole).description != "" ==>
        teamMembers == old(teamMembers) + [TeamMember(now, old(newRole).role, old(newRole).description)] &&
        !isAddingRole && newRole == EmptyRoleDraft
    {
      if newRole.role != "" && newRole.description != "" {
        teamMembers := teamMembers + [TeamMember(now, newRole.role, newRole.description)];
        isAddingRole := false;
        newRole := EmptyRoleDraft;
      }
    }

    /** `handleDeleteRole(id)`; `confirmed` is the answer to the confirmation dialog. */
    method HandleDeleteRole(id: int, confirmed: bool)
      modifies this`teamMembers
      ensures confirmed ==> teamMembers == RemoveKey(old(teamMembers), MemberId, id)
      ensures !confirmed ==> teamMembers == old(teamMembers)
    {
      if confirmed {
        teamMembers := RemoveKey(teamMembers, MemberId, id);
      }
    }
  }
}
