/** Topics: splitting at slashes, and what that recovers from a device's or group's topic. */
module Topics {
  predicate SlashFree(s: string) { '/' !in s }

  /** Python's s.split("/"). */
  function Split(s: string): (parts: seq<string>)
    ensures |parts| >= 1
    ensures forall i | 0 <= i < |parts| :: SlashFree(parts[i])
    ensures SlashFree(s) ==> parts == [s]
  {
    if s == [] then [[]]
    else
      var rest := Split(s[1..]);
      assert SlashFree(s) ==> s == [s[0]] + s[1..] && SlashFree(s[1..]);
      if s[0] == '/' then [[]] + rest else [[s[0]] + rest[0]] + rest[1..]
  }

  lemma {:induction false} SplitAtSlash(a: string, b: string)
    requires SlashFree(a)
    ensures Split(a + "/" + b) == [a] + Split(b)
  {
    var s := a + "/" + b;
    if a == [] {
      assert s[1..] == b;
    } else {
      assert s[1..] == a[1..] + "/" + b && s[0] == a[0];
      SplitAtSlash(a[1..], b);
      assert [a[0]] + a[1..] == a;
    }
  }

  function Kind(isGroup: bool): (kind: string)
    ensures SlashFree(kind)
  {
    if isGroup then "groups" else "devices"
  }

  function TopicOf(isGroup: bool, id: string): string {
    Kind(isGroup) + "/" + (id + "/state")
  }

  /** The second part of a topic is the id it was built from, exactly for the ids without a slash. */
  lemma SecondPartIsId(isGroup: bool, id: string)
    ensures |Split(TopicOf(isGroup, id))| >= 2
    ensures Split(TopicOf(isGroup, id))[1] == id <==> SlashFree(id)
  {
    var kind := Kind(isGroup);
    SplitAtSlash(kind, id + "/state");
    if SlashFree(id) {
      assert id + "/state" == id + "/" + "state";
      SplitAtSlash(id, "state");
    }
  }

  /** The topic of a device, and of a group, spelled out. */
  lemma TopicSpelled(id: string)
    ensures TopicOf(false, id) == "devices/" + id + "/state"
    ensures TopicOf(true, id) == "groups/" + id + "/state"
  {}

  /** Topics tell devices from groups, and every id from every other. */
  lemma TopicsDiffer(a: bool, i: string, b: bool, j: string)
    requires TopicOf(a, i) == TopicOf(b, j)
    ensures a == b && i == j
  {
    var topic := TopicOf(a, i);
    assert topic[0] == if a then 'g' else 'd';
    assert topic[0] == if b then 'g' else 'd';
    var start := |Kind(a)| + 1;
    assert topic[start..|topic| - 6] == i;
    assert topic[start..|topic| - 6] == j;
  }
}
