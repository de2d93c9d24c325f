/** The project listing's bookmarks: a list of project ids that the save button
    toggles. */
module Projects {
  import opened Lists

  class ProjectsPage {
    var savedProjects: seq<int>

    /** Every id is listed at most once: the toggle never adds a listed id. */
    ghost predicate Valid()
      reads this
    {
      NoDuplicates(savedProjects)
    }

    /** No project is saved at first. */
    constructor ()
      ensures Valid() && savedProjects == []
    {
      savedProjects := [];
    }

    /** `handleSaveProject`: an unsaved id is appended, a saved one removed, and
        the list keeps listing each id once. */
    method HandleSaveProject(projectId: int)
      requires Valid()
      modifies this
      ensures Valid()
      ensures savedProjects == Toggle(old(savedProjects), projectId)
    {
      ToggleNoDuplicates(savedProjects, projectId);
      savedProjects := Toggle(savedProjects, projectId);
    }
  }
}
