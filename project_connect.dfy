/** flameMenuProjectconnect: linking the Flame project to a Kitsu project, unlinking it,
    and the menu dispatch that links the project behind a menu entry. */
module ProjectConnect {
  import opened Values
  import opened Connector

  /** A key of `dynamic_menu_data`: `str(id(project))` for the project behind a menu entry. */
  type Handle = string

  /** The link as three places hold it: the Flame project's `shotgun_project_name` field,
      and the connector's `linked_project` and `linked_project_id`. */
  datatype LinkState = LinkState(hostName: string, project: Option<string>, projectId: Option<string>)

  /** What `unlink_project` leaves. */
  const Unlinked := LinkState("", None, None)

  /** `link_project` acts only on a project whose `name` is set. */
  predicate Named(p: Entity) {
    IsSet(Field(p, "name"))
  }

  /** A linked project name always comes with a linked project id. */
  predicate Consistent(s: LinkState) {
    IsSet(s.project) ==> IsSet(s.projectId)
  }

  /** The link after `link_project(p)`. */
  function Linked(s: LinkState, p: Entity): LinkState {
    if Named(p) then
      LinkState(p["name"], Some(p["name"]), if "id" in p then Some(p["id"]) else s.projectId)
    else
      s
  }

  /** The link after calling the menu entry for `handle`: the project registered under it
      is linked when it is a non-empty dictionary. */
  function Dispatched(menu: map<Handle, Entity>, handle: Handle, s: LinkState): LinkState {
    if handle in menu && menu[handle] != map[] then Linked(s, menu[handle]) else s
  }

  /** The rule of the constructor: a linked project name without an id is unlinked. */
  function Reconciled(s: LinkState): (r: LinkState)
    ensures Consistent(r)
    ensures Consistent(s) ==> r == s
    ensures !Consistent(s) ==> r == Unlinked
  {
    if IsSet(s.project) && !IsSet(s.projectId) then Unlinked else s
  }

  /** Linking a named project takes its name everywhere, and its id when it has one; a
      project without a name changes nothing. */
  lemma LinkedTakesName(s: LinkState, p: Entity)
    ensures Named(p) ==> Linked(s, p).hostName == p["name"] && Linked(s, p).project == Some(p["name"])
    ensures Named(p) && "id" in p ==> Linked(s, p).projectId == Some(p["id"])
    ensures !Named(p) ==> Linked(s, p) == s
  {
  }

  /** A named project without an `id` key leaves the previous project's id in place. */
  lemma LinkWithoutIdKeepsPreviousId(s: LinkState, p: Entity)
    requires Named(p) && "id" !in p
    ensures Linked(s, p).project == Some(p["name"]) && Linked(s, p).projectId == s.projectId
  {
  }

  /** Linking the same project twice is linking it once; a later link of a project with an
      id overrides everything an earlier one set. */
  lemma LinkedIdempotent(s: LinkState, p: Entity, q: Entity)
    ensures Linked(Linked(s, p), p) == Linked(s, p)
    ensures Named(q) && "id" in q ==> Linked(Linked(s, p), q) == Linked(s, q)
  {
  }

  /** Linking a project with a set id keeps the link consistent; linking a named project
      without an id from the unlinked state does not. */
  lemma LinkedConsistency(s: LinkState, p: Entity)
    ensures Consistent(s) && IsSet(Field(p, "id")) ==> Consistent(Linked(s, p))
    ensures Named(p) && "id" !in p ==> !Consistent(Linked(Unlinked, p))
  {
  }

  /** Calling the entry registered for a project links that project; an unknown handle
      changes nothing. */
  lemma DispatchLinksRegisteredProject(menu: map<Handle, Entity>, handle: Handle, p: Entity, s: LinkState)
    ensures Dispatched(menu[handle := p], handle, s) == Linked(s, p)
    ensures handle !in menu ==> Dispatched(menu, handle, s) == s
  {
    if p == map[] {
      assert "name" !in p;
    }
  }

  class ProjectConnect {
    const connector: KitsuConnector
    var dynamicMenuData: map<Handle, Entity>
    var hostProjectName: string

    /** The link as the Flame host and the connector hold it. */
    function State(): LinkState
      reads this, connector
    {
      LinkState(hostProjectName, connector.linkedProject, connector.linkedProjectId)
    }

    /** `flameMenuProjectconnect(framework, connector)`, with the Flame project's
        `shotgun_project_name` as it stands: a linked name without an id is unlinked. */
    constructor (connector: KitsuConnector, hostProjectName: string)
      modifies connector`linkedProject, connector`linkedProjectId
      ensures this.connector == connector && dynamicMenuData == map[]
      ensures State() == Reconciled(LinkState(hostProjectName, old(connector.linkedProject), old(connector.linkedProjectId)))
      ensures Consistent(State())
    {
      this.connector := connector;
      this.hostProjectName := hostProjectName;
      dynamicMenuData := map[];
      new;
      if IsSet(connector.linkedProject) && !IsSet(connector.linkedProjectId) {
        UnlinkProject();
      }
    }

    /** `unlink_project`. */
    method UnlinkProject()
      modifies this`hostProjectName, connector`linkedProject, connector`linkedProjectId
      ensures State() == Unlinked
    {
      hostProjectName := "";
      connector.linkedProject := None;
      connector.linkedProjectId := None;
    }

    /** `link_project(project)`. */
    method LinkProject(project: Entity)
      modifies this`hostProjectName, connector`linkedProject, connector`linkedProjectId
      ensures State() == Linked(old(State()), project)
    {
      var projectName := Field(project, "name");
      if IsSet(projectName) {
        hostProjectName := projectName.value;
        connector.linkedProject := projectName;
        if "id" in project {
          connector.linkedProjectId := Field(project, "id");
        }
      }
    }

    /** `build_menu` records the project behind each menu entry under its handle. */
    method RegisterMenuProject(handle: Handle, project: Entity)
      modifies this`dynamicMenuData
      ensures dynamicMenuData == old(dynamicMenuData)[handle := project]
    {
      dynamicMenuData := dynamicMenuData[handle := project];
    }

    /** Calling `getattr(self, handle)`: the method `__getattr__` builds looks the handle up
        in `dynamic_menu_data` and links the project it finds, when that is non-empty. */
    method Dispatch(handle: Handle)
      modifies this`hostProjectName, connector`linkedProject, connector`linkedProjectId
      ensures State() == Dispatched(dynamicMenuData, handle, old(State()))
    {
      var project := if handle in dynamicMenuData then Some(dynamicMenuData[handle]) else None;
      if project.Some? && project.value != map[] {
        LinkProject(project.value);
      }
    }
  }
}
