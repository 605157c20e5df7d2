/**
 * `select_proj` of braintrust_exporter.py: list the projects, read a 1-based
 * choice, return the chosen project's id and name. The console prompt is the
 * parameter `choice`.
 */
module Selection {
  import opened Wrappers

  datatype Project = Project(id: string, name: string)

  /** The ways the selection stops the exporter. */
  datatype SelectError =
    | NoProjects        // sys.exit('No projects available')
    | IndexError        // projects[choice] out of Python's index range
    | ChoiceOutOfRange  // a choice outside 1..n, refused up front

  /**
   * As written: `projects[int(input()) - 1]` with Python's list indexing,
   * where an index from -n to -1 counts back from the end of the list.
   */
  function SelectProject(projects: seq<Project>, choice: int): (r: Result<(string, string), SelectError>)
    ensures projects == [] ==> r == Failure(NoProjects)
    ensures 1 <= choice <= |projects| ==> r == Success((projects[choice - 1].id, projects[choice - 1].name))
    ensures projects != [] && 1 - |projects| <= choice <= 0 ==>
      r == Success((projects[|projects| + choice - 1].id, projects[|projects| + choice - 1].name))
    ensures projects != [] ==> (r.Failure? <==> choice > |projects| || choice <= -|projects|)
  {
    if projects == [] then Failure(NoProjects)
    else
      var index := choice - 1;
      if index < -|projects| || |projects| <= index then Failure(IndexError)
      else
        var p := projects[if index < 0 then index + |projects| else index];
        Success((p.id, p.name))
  }

  /** The choice 0 is not refused: it selects the last project. */
  lemma ChoiceZeroSelectsLast(projects: seq<Project>)
    requires projects != []
    ensures SelectProject(projects, 0) == Success((projects[|projects| - 1].id, projects[|projects| - 1].name))
  {
  }

  /** With two projects, the out-of-range choice 0 silently selects the second one. */
  lemma ChoiceZeroWithTwoProjects(p: Project, q: Project)
    ensures SelectProject([p, q], 0) == Success((q.id, q.name))
    ensures SelectProjectChecked([p, q], 0) == Failure(ChoiceOutOfRange)
  {
    ChoiceZeroSelectsLast([p, q]);
  }

  /** As intended: an empty list is fatal, and only the choices 1..n are accepted. */
  function SelectProjectChecked(projects: seq<Project>, choice: int): (r: Result<(string, string), SelectError>)
    ensures projects == [] ==> r == Failure(NoProjects)
    ensures r.Success? <==> 1 <= choice <= |projects|
    ensures r.Success? ==> r.value == (projects[choice - 1].id, projects[choice - 1].name)
    ensures projects != [] && r.Failure? ==> r.error == ChoiceOutOfRange
  {
    if projects == [] then Failure(NoProjects)
    else if choice < 1 || |projects| < choice then Failure(ChoiceOutOfRange)
    else Success((projects[choice - 1].id, projects[choice - 1].name))
  }

  /**
   * The checked selection agrees with the one as written on every choice it
   * accepts, and refuses every choice from which the one as written would
   * select by counting from the end.
   */
  lemma CheckedAgreesInRange(projects: seq<Project>, choice: int)
    ensures SelectProjectChecked(projects, choice).Success? ==>
      SelectProjectChecked(projects, choice) == SelectProject(projects, choice)
    ensures projects != [] && -|projects| < choice < 1 ==>
      SelectProject(projects, choice).Success? && SelectProjectChecked(projects, choice).Failure?
  {
  }

  /**
   * A single project `{id: "p1", name: "Demo"}`: the checked selection accepts
   * only the choice 1, while the selection as written also accepts 0 (the
   * index -1), and both return ("p1", "Demo").
   */
  lemma SingleProjectExample(choice: int)
    ensures SelectProjectChecked([Project("p1", "Demo")], choice).Success? <==> choice == 1
    ensures SelectProjectChecked([Project("p1", "Demo")], 1) == Success(("p1", "Demo"))
    ensures SelectProject([Project("p1", "Demo")], choice).Success? <==> choice == 0 || choice == 1
    ensures SelectProject([Project("p1", "Demo")], 0) == Success(("p1", "Demo"))
    ensures SelectProject([Project("p1", "Demo")], 1) == Success(("p1", "Demo"))
  {
  }
}
