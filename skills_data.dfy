/** The skill records shared by the radar and the technology grid, the category list
    and the filter both components apply. */
module SkillsData {

  import opened Wrappers
  import opened Seqs

  /** A listed skill; `level` is a percentage. */
  datatype Skill = Skill(
    id: string, name: string, category: string, level: int,
    years: Option<int>, projects: Option<seq<string>>, related: Option<seq<string>>)

  const Categories: seq<string> := ["Frontend", "Backend", "AI/ML", "DevOps", "Tools"]

  const Skills: seq<Skill> := [
    Skill("react", "React", "Frontend", 90, Some(5), Some(["Website", "Dashboard"]), Some(["typescript", "threejs"])),
    Skill("nextjs", "Next.js", "Frontend", 85, Some(4), Some(["Marketing site"]), Some(["react"])),
    Skill("typescript", "TypeScript", "Tools", 88, Some(5), Some(["All"]), Some(["react", "node"])),
    Skill("node", "Node.js", "Backend", 80, Some(6), Some(["API"]), Some(["express"])),
    Skill("python", "Python", "AI/ML", 82, Some(6), Some(["ML experiments"]), Some(["pytorch"])),
    Skill("pytorch", "PyTorch", "AI/ML", 75, Some(3), Some(["Research"]), Some(["python"])),
    Skill("docker", "Docker", "DevOps", 78, Some(4), Some(["Deployments"]), Some(["kubernetes"])),
    Skill("kubernetes", "Kubernetes", "DevOps", 70, Some(2), Some(["Scaling"]), Some(["docker"])),
    Skill("threejs", "three.js", "Frontend", 65, Some(2), Some(["3D visuals"]), Some(["webgl"])),
    Skill("terraform", "Terraform", "DevOps", 60, Some(2), Some(["Infra as code"]), Some(["aws"]))
  ]

  function InCategory(c: string): Skill -> bool {
    (s: Skill) => s.category == c
  }

  /** `skills.filter((s) => s.category === c)`: exactly the skills of category `c`, in
      their listed order. */
  function OfCategory(ss: seq<Skill>, c: string): (r: seq<Skill>)
    ensures forall s :: s in r <==> s in ss && s.category == c
    ensures forall s :: multiset(r)[s] == if s.category == c then multiset(ss)[s] else 0
    ensures IsSubsequence(r, ss)
  {
    FilterIsSubsequence(ss, InCategory(c));
    FilterCounts(ss, InCategory(c));
    Filter(ss, InCategory(c))
  }

  /** Every skill of a category group carries that category, so the groups of two
      different categories share no skill. */
  lemma GroupsDisjoint(ss: seq<Skill>, c: string, d: string, s: Skill)
    requires c != d
    ensures !(s in OfCategory(ss, c) && s in OfCategory(ss, d))
  {
  }

  /** The listed categories are distinct and none of them is the empty string. */
  lemma CategoriesWellFormed()
    ensures NoDuplicates(Categories)
    ensures forall c | c in Categories :: c != ""
  {
  }
}
