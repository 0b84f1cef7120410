/** The project-list editor: each operation builds a new list from the
    current one and hands it to the parent. */
module ProjectForm {
  import opened Common

  /** A project entry: each field name mapped to the text typed into it. */
  type Project = map<string, string>

  const EmptyProject: Project := map["name" := "", "type" := "", "description" := "", "link" := ""]

  /** `data = []`: a list that was not supplied is empty. */
  function DataOrEmpty(data: Option<seq<Project>>): (d: seq<Project>)
    ensures data.None? ==> d == []
    ensures data.Some? ==> d == data.value
  {
    data.GetOr([])
  }

  /** `addProject`: the old list followed by one empty entry. */
  function AddProject(data: Option<seq<Project>>): (r: seq<Project>)
    ensures |r| == |DataOrEmpty(data)| + 1
    ensures r[..|r| - 1] == DataOrEmpty(data)
    ensures r[|r| - 1] == EmptyProject
  {
    DataOrEmpty(data) + [EmptyProject]
  }

  /** `filter((_, i) => i !== index)` over `s`, whose first element sits at position `from`. */
  function KeepOthers(s: seq<Project>, index: int, from: int): (r: seq<Project>)
    ensures from <= index < from + |s| ==> r == s[..index - from] + s[index - from + 1..]
    ensures !(from <= index < from + |s|) ==> r == s
    decreases |s|
  {
    if s == [] then []
    else
      var rest := KeepOthers(s[1..], index, from + 1);
      assert s == [s[0]] + s[1..];
      if from != index then [s[0]] + rest else rest
  }

  /** `removeProject(index)`: deletes the entry at `index` and keeps the rest in
      order; an index outside the list changes nothing. */
  function RemoveProject(data: Option<seq<Project>>, index: int): (r: seq<Project>)
    ensures var d := DataOrEmpty(data);
      0 <= index < |d| ==> |r| == |d| - 1 && r == d[..index] + d[index + 1..]
    ensures var d := DataOrEmpty(data);
      !(0 <= index < |d|) ==> r == d
  {
    KeepOthers(DataOrEmpty(data), index, 0)
  }

  /** `map((proj, i) => i === index ? { ...proj, [field]: value } : proj)` over
      `s`, whose first element sits at position `from`. */
  function SetFieldAt(s: seq<Project>, index: int, field: string, value: string, from: int): (r: seq<Project>)
    ensures |r| == |s|
    ensures forall j :: 0 <= j < |s| && from + j != index ==> r[j] == s[j]
    ensures forall j :: 0 <= j < |s| && from + j == index ==> r[j] == s[j][field := value]
    decreases |s|
  {
    if s == [] then []
    else
      var rest := SetFieldAt(s[1..], index, field, value, from + 1);
      (if from == index then [s[0][field := value]] else [s[0]]) + rest
  }

  /** `updateProject(index, field, value)`: the entry at `index` gets `field`
      set to `value` and keeps its other fields; every other entry and the
      length stay; an index outside the list changes nothing. */
  function UpdateProject(data: Option<seq<Project>>, index: int, field: string, value: string): (r: seq<Project>)
    ensures var d := DataOrEmpty(data);
      |r| == |d| && forall j :: 0 <= j < |d| && j != index ==> r[j] == d[j]
    ensures var d := DataOrEmpty(data);
      0 <= index < |d| ==>
        && r[index].Keys == d[index].Keys + {field}
        && r[index][field] == value
        && forall f :: f in d[index] && f != field ==> r[index][f] == d[index][f]
    ensures var d := DataOrEmpty(data);
      !(0 <= index < |d|) ==> r == d
  {
    SetFieldAt(DataOrEmpty(data), index, field, value, 0)
  }

  /** `url?.startsWith("http://") || url?.startsWith("https://")`; an absent url is not a link. */
  predicate IsValidLink(url: Option<string>) {
    url.Some? && (StartsWith(url.value, "http://") || StartsWith(url.value, "https://"))
  }

  /** The `link` field of an entry, absent when the entry has none. */
  function LinkOf(p: Project): (url: Option<string>)
    ensures url.Some? <==> "link" in p
    ensures url.Some? ==> url.value == p["link"]
  {
    if "link" in p then Some(p["link"]) else None
  }

  /** The scheme test is exact and case-sensitive, and a fresh entry shows no link. */
  lemma LinkExamples()
    ensures IsValidLink(Some("https://example.org")) && IsValidLink(Some("http://x"))
    ensures !IsValidLink(Some("HTTP://example.org")) && !IsValidLink(Some("ftp://x"))
    ensures !IsValidLink(Some("http:/x")) && !IsValidLink(None)
    ensures !IsValidLink(LinkOf(EmptyProject))
  {
    assert "https://example.org"[..8] == "https://";
    assert "http://x"[..7] == "http://";
    assert "HTTP://example.org"[..7][0] != "http://"[0];
    assert "HTTP://example.org"[..8][0] != "https://"[0];
    assert "ftp://x"[..7][0] != "http://"[0];
    assert "http:/x"[..7][6] != "http://"[6];
  }

  /** Validity depends only on the scheme: typing more after a valid prefix keeps it valid. */
  lemma ValidLinkExtends(url: string, more: string)
    requires IsValidLink(Some(url))
    ensures IsValidLink(Some(url + more))
  {
  }

  /** Adding and then removing the new last entry gives back the list. */
  lemma AddThenRemoveLast(data: Option<seq<Project>>)
    ensures RemoveProject(Some(AddProject(data)), |DataOrEmpty(data)|) == DataOrEmpty(data)
  {
  }
}
