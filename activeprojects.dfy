/** The business owner's active-project page: the searched and filtered list,
    the status badge, the chat box's send guard and the completion footer. */
module UmkmActiveProjects {
  import opened Wrappers
  import opened Text
  import opened Lists

  /** An active project; `selectedStudent` is the chosen student's full name, if any. */
  datatype ActiveProject = ActiveProject(
    id: int, title: string, status: string, selectedStudent: Option<string>)

  /** The row test of `filteredProjects`: the search is found in the title or the
      student's name, ignoring case, and the filter is 'all' or the status. */
  predicate ProjectMatches(filter: string, searchTerm: string, project: ActiveProject) {
    && (ContainsIgnoringCase(project.title, searchTerm)
        || (project.selectedStudent.Some? && ContainsIgnoringCase(project.selectedStudent.value, searchTerm)))
    && (filter == "all" || project.status == filter)
  }

  function Matcher(filter: string, searchTerm: string): ActiveProject -> bool {
    (project: ActiveProject) => ProjectMatches(filter, searchTerm, project)
  }

  /** `filteredProjects`: an order-preserving sub-list holding exactly the matching
      projects. */
  function FilterProjects(projects: seq<ActiveProject>, filter: string, searchTerm: string): (r: seq<ActiveProject>)
    ensures IsSubsequence(r, projects)
    ensures forall p :: p in r <==> p in projects && ProjectMatches(filter, searchTerm, p)
    ensures forall p :: p in r && filter != "all" ==> p.status == filter
  {
    Filter(projects, Matcher(filter, searchTerm))
  }

  /** The 'all' filter with no search shows every project. */
  lemma EmptySearchShowsAll(projects: seq<ActiveProject>)
    ensures FilterProjects(projects, "all", "") == projects
  {
    FilterAll(projects, Matcher("all", ""));
  }

  const Gray := "bg-gray-100 text-gray-800"
  const Yellow := "bg-yellow-100 text-yellow-800"

  /** `getStatusColor`: blue, yellow and green for the three lifecycle statuses,
      gray for every other status. */
  function StatusColor(status: string): (r: string)
    ensures status == "in_progress" ==> r == "bg-blue-100 text-blue-800"
    ensures r == Yellow <==> status == "completion_requested"
    ensures status == "completed" ==> r == "bg-green-100 text-green-800"
    ensures r == Gray <==> status !in {"in_progress", "completion_requested", "completed"}
  {
    match status
    case "in_progress" => "bg-blue-100 text-blue-800"
    case "completion_requested" => Yellow
    case "completed" => "bg-green-100 text-green-800"
    case _ => Gray
  }

  /** `getStatusText`: the three lifecycle statuses get their labels, any other
      status is shown as it is. */
  function StatusText(status: string): (r: string)
    ensures status == "in_progress" ==> r == "Sedang Dikerjakan"
    ensures status == "completion_requested" ==> r == "Menunggu Approval"
    ensures status == "completed" ==> r == "Selesai"
    ensures r != status <==> status in {"in_progress", "completion_requested", "completed"}
  {
    match status
    case "in_progress" => "Sedang Dikerjakan"
    case "completion_requested" => "Menunggu Approval"
    case "completed" => "Selesai"
    case _ => status
  }

  /** The badge colour and the badge text agree: a status is gray exactly when it
      is shown unlabelled. */
  lemma BadgeAgrees(status: string)
    ensures StatusColor(status) == Gray <==> StatusText(status) == status
  {
  }

  /** The modal footer with the approve button is shown only for a project whose
      student asked for completion, which is exactly the yellow badge, labelled
      "Menunggu Approval". */
  predicate ApproveOffered(project: ActiveProject): (r: bool)
    ensures r <==> StatusColor(project.status) == Yellow
    ensures r ==> StatusText(project.status) == "Menunggu Approval"
  {
    project.status == "completion_requested"
  }

  /** The answer of the send-message call. */
  datatype SendResponse = SendAccepted | SendRejected | SendThrew

  /** The chat box of the project modal. */
  class ChatComposer {
    var newMessage: string
    var sending: bool

    /** The box starts empty and idle. */
    constructor ()
      ensures newMessage == "" && !sending
    {
      newMessage := "";
      sending := false;
    }

    /** The input's `onChange`. */
    method SetNewMessage(value: string)
      modifies this
      ensures newMessage == value && sending == old(sending)
    {
      newMessage := value;
    }

    /** The send button is disabled while sending or while the box holds only
        whitespace. */
    predicate SendDisabled(): (r: bool)
      reads this
      ensures r <==> sending || AllSpace(newMessage)
    {
      sending || Trim(newMessage) == ""
    }

    /** `sendMessage`: a box that is blank after trimming sends nothing; otherwise
        the untrimmed text is posted, and the box is cleared only when the post
        succeeds. Sending is over when the call returns. When idle, it posts
        exactly when the button is enabled. */
    method SendMessage(response: SendResponse) returns (posted: Option<string>)
      modifies this
      ensures posted.None? <==> AllSpace(old(newMessage))
      ensures !old(sending) ==> (posted.Some? <==> !old(SendDisabled()))
      ensures posted.Some? ==> posted.value == old(newMessage) && !sending
      ensures posted.None? ==> newMessage == old(newMessage) && sending == old(sending)
      ensures posted.Some? && response.SendAccepted? ==> newMessage == ""
      ensures posted.Some? && !response.SendAccepted? ==> newMessage == old(newMessage)
    {
      if Trim(newMessage) == "" {
        return None;
      }
      sending := true;
      posted := Some(newMessage);
      if response.SendAccepted? {
        newMessage := "";
      }
      sending := false;
    }
  }
}
