/**
 * The file-based skill repository: each sub-directory of the skills directory
 * that holds a `description.txt` is a skill, and its `content.md` is loaded on
 * demand. The file system is abstracted as the list of entries that iterating
 * over the skills directory yields, in that order.
 */
module SkillRepository {

  import opened Wrappers
  import opened Strings

  const DescriptionFile := "description.txt"
  const ContentFile := "content.md"

  /** An entry of the skills directory: a plain file, or a directory with its files by name. */
  datatype Entry = File | Folder(files: map<string, string>)

  datatype Item = Item(name: string, entry: Entry)

  /** The skills directory: missing, or present with its entries in iteration order. */
  datatype SkillsDir = Missing | Present(items: seq<Item>)

  /** Entry names within one directory are distinct. */
  predicate UniqueNames(items: seq<Item>)
  {
    forall i, j :: 0 <= i < j < |items| ==> items[i].name != items[j].name
  }

  datatype Skill = Skill(name: string, description: string, content: string)

  /** An entry `list_skills` accepts: a directory, not named `__…`, holding `description.txt`. */
  predicate IsSkillDir(item: Item)
  {
    item.entry.Folder? && !StartsWith(item.name, "__") && DescriptionFile in item.entry.files
  }

  /** The listing of one accepted entry; the content is not loaded. */
  function Listed(item: Item): Skill
    requires IsSkillDir(item)
  {
    Skill(item.name, Strip(item.entry.files[DescriptionFile]), "")
  }

  /** The skills of `items`, in iteration order. */
  function SkillsOf(items: seq<Item>): seq<Skill>
  {
    if |items| == 0 then []
    else SkillsOf(items[..|items| - 1]) + (if IsSkillDir(items[|items| - 1]) then [Listed(items[|items| - 1])] else [])
  }

  /** What `list_skills` returns. */
  function Skills(dir: SkillsDir): seq<Skill>
  {
    if dir.Missing? then [] else SkillsOf(dir.items)
  }

  /** `list_skills`: scan the directory's entries in order, keeping the accepted ones. */
  method ListSkills(dir: SkillsDir) returns (skills: seq<Skill>)
    ensures skills == Skills(dir)
    ensures dir.Missing? ==> skills == []
  {
    if dir.Missing? {
      return [];
    }
    skills := [];
    var i := 0;
    while i < |dir.items|
      invariant 0 <= i <= |dir.items|
      invariant skills == SkillsOf(dir.items[..i])
    {
      var item := dir.items[i];
      if item.entry.Folder? && !StartsWith(item.name, "__") {
        if DescriptionFile in item.entry.files {
          var description := Strip(item.entry.files[DescriptionFile]);
          skills := skills + [Skill(item.name, description, "")];
        }
      }
      assert dir.items[..i + 1][..i] == dir.items[..i];
      i := i + 1;
    }
    assert dir.items[..i] == dir.items;
  }

  /** Every listed skill comes from an accepted entry, with the entry's name and no content. */
  lemma {:induction false} SkillsSound(items: seq<Item>, k: nat)
    requires k < |SkillsOf(items)|
    ensures exists i :: 0 <= i < |items| && IsSkillDir(items[i]) && SkillsOf(items)[k] == Listed(items[i])
    ensures SkillsOf(items)[k].content == ""
    decreases |items|
  {
    var init := items[..|items| - 1];
    if k < |SkillsOf(init)| {
      SkillsSound(init, k);
      var i :| 0 <= i < |init| && IsSkillDir(init[i]) && SkillsOf(init)[k] == Listed(init[i]);
      assert items[i] == init[i];
    } else {
      assert SkillsOf(items)[k] == Listed(items[|items| - 1]);
    }
  }

  /** Every accepted entry is listed, right after the skills of the entries before it. */
  lemma {:induction false} SkillsComplete(items: seq<Item>, i: nat)
    requires i < |items| && IsSkillDir(items[i])
    ensures |SkillsOf(items[..i])| < |SkillsOf(items)|
    ensures SkillsOf(items)[|SkillsOf(items[..i])|] == Listed(items[i])
    decreases |items|
  {
    var init := items[..|items| - 1];
    if i < |items| - 1 {
      assert init[..i] == items[..i];
      SkillsComplete(init, i);
    } else {
      assert items[..i] == init;
    }
  }

  /** The entry named `name`, as `skills_dir / name` finds it. */
  function Lookup(items: seq<Item>, name: string): (r: Option<Entry>)
    ensures r.Some? ==> exists i :: 0 <= i < |items| && items[i] == Item(name, r.value)
    ensures r.None? ==> forall i :: 0 <= i < |items| ==> items[i].name != name
  {
    if |items| == 0 then None
    else if items[0].name == name then Some(items[0].entry)
    else
      var r := Lookup(items[1..], name);
      assert r.Some? ==> exists i :: 0 <= i < |items[1..]| && items[1..][i] == Item(name, r.value);
      r
  }

  /** `get_skill`: the full skill, or `None` when the directory or one of its two files is missing. */
  function GetSkill(dir: SkillsDir, name: string): (r: Option<Skill>)
    ensures r.Some? <==>
      && dir.Present?
      && Lookup(dir.items, name).Some?
      && Lookup(dir.items, name).value.Folder?
      && DescriptionFile in Lookup(dir.items, name).value.files
      && ContentFile in Lookup(dir.items, name).value.files
    ensures r.Some? ==>
      var files := Lookup(dir.items, name).value.files;
      r.value == Skill(name, Strip(files[DescriptionFile]), Strip(files[ContentFile]))
  {
    if dir.Missing? then None
    else match Lookup(dir.items, name)
      case None => None
      case Some(entry) =>
        if !entry.Folder? then None
        else if DescriptionFile !in entry.files || ContentFile !in entry.files then None
        else Some(Skill(name, Strip(entry.files[DescriptionFile]), Strip(entry.files[ContentFile])))
  }

  /** The names of the listed skills, in listing order. */
  function SkillNames(dir: SkillsDir): (names: seq<string>)
    ensures |names| == |Skills(dir)|
    ensures forall k :: 0 <= k < |names| ==> names[k] == Skills(dir)[k].name
  {
    seq(|Skills(dir)|, k requires 0 <= k < |Skills(dir)| => Skills(dir)[k].name)
  }

  /** `get_skill_names`: the listed names joined by ", ". */
  function GetSkillNames(dir: SkillsDir): (r: string)
    ensures |SkillNames(dir)| > 0 ==> |r| == SumLengths(SkillNames(dir)) + 2 * (|SkillNames(dir)| - 1)
  {
    var names := SkillNames(dir);
    if |names| > 0 then JoinLength(", ", names); Join(", ", names) else Join(", ", names)
  }

  /** The names after the first, each with the blank that follows a comma in the joined text. */
  function Spaced(names: seq<string>): (r: seq<string>)
    requires |names| > 0
    ensures |r| == |names| && r[0] == names[0]
    ensures forall k :: 1 <= k < |names| ==> r[k] == " " + names[k]
  {
    [names[0]] + seq(|names| - 1, k requires 0 <= k < |names| - 1 => " " + names[k + 1])
  }

  lemma {:induction false} JoinCommaSpace(names: seq<string>)
    requires |names| > 0
    ensures Join(", ", names) == Join(",", Spaced(names))
    decreases |names|
  {
    if |names| > 1 {
      var rest := names[1..];
      JoinCommaSpace(rest);
      var sr := Spaced(rest);
      assert Spaced(names)[1..] == [" " + sr[0]] + sr[1..];
      JoinPrepend(",", " ", sr);
      assert names[0] + ", " + Join(", ", rest) == names[0] + "," + (" " + Join(",", sr));
    }
  }

  /** Prefixing the first part prefixes the joined text. */
  lemma JoinPrepend(sep: string, p: string, parts: seq<string>)
    requires |parts| > 0
    ensures Join(sep, [p + parts[0]] + parts[1..]) == p + Join(sep, parts)
  {
    assert ([p + parts[0]] + parts[1..])[1..] == parts[1..];
  }

  /** Splitting the `get_skill_names` text at each comma gives back the listed names. */
  lemma SkillNamesRoundTrip(dir: SkillsDir)
    requires |Skills(dir)| > 0
    requires forall k :: 0 <= k < |Skills(dir)| ==> ',' !in Skills(dir)[k].name
    ensures Split(GetSkillNames(dir), ',') == Spaced(SkillNames(dir))
  {
    var names := SkillNames(dir);
    JoinCommaSpace(names);
    var sp := Spaced(names);
    forall k | 0 <= k < |sp| ensures ',' !in sp[k] {
      if k > 0 {
        assert sp[k] == " " + names[k];
      }
    }
    SplitJoin(sp, ',');
  }
}
