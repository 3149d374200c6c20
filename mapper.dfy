/**
 * The webhook payload of a GitHub `issues` event, as a typed record, and the
 * two pure functions over it: the idempotency key and the projection of the
 * issue into the target schema.
 */
module IssueMapper {
  import opened Wrappers
  import Java

  datatype Installation = Installation(id: int)
  datatype User = User(login: string)
  datatype Assignee = Assignee(id: int, nodeId: string)
  datatype Repository = Repository(id: int, nodeId: string)
  datatype Issue = Issue(
    id: int, nodeId: string, url: string, user: User, assignees: seq<Assignee>,
    body: string, state: string, number: int, title: string,
    updatedAt: string, createdAt: string)
  datatype Payload = Payload(installation: Installation, issue: Issue, repository: Repository)

  /** An `{id, nodeId}` pair of the target schema (assignees and the repository). */
  datatype NodeRef = NodeRef(id: int, nodeId: string)
  datatype Author = Author(login: string)
  datatype MappedIssue = MappedIssue(
    id: int, nodeId: string, url: string, repository: NodeRef, author: Author,
    assignees: seq<NodeRef>, body: string, state: string, number: int, title: string,
    updatedAt: string, publishedAt: string)

  /** Index of the first ':' in `s`, or `|s|` when there is none. */
  function IndexOfColon(s: string): (i: nat)
    ensures i <= |s|
    ensures i < |s| ==> s[i] == ':'
    ensures forall j :: 0 <= j < i ==> s[j] != ':'
  {
    if s == [] then 0 else if s[0] == ':' then 0 else 1 + IndexOfColon(s[1..])
  }

  /** Splits a key at its first ':' into the installation id and the node id. */
  function SplitKey(key: string): Option<(int, string)> {
    var i := IndexOfColon(key);
    if i == |key| then None
    else match Java.ParseInt(key[..i])
      case None => None
      case Some(id) => Some((id, key[i + 1..]))
  }

  /** `"%s:%s"` of the installation id's decimal text and the node id. */
  function KeyOf(installationId: int, nodeId: string): string {
    Java.IntToString(installationId) + ":" + nodeId
  }

  /** The decimal id holds no ':', so the first ':' of a key is its separator. */
  lemma {:induction false} KeyOfSplits(installationId: int, nodeId: string)
    ensures SplitKey(KeyOf(installationId, nodeId)) == Some((installationId, nodeId))
  {
    var text := Java.IntToString(installationId);
    var key := KeyOf(installationId, nodeId);
    assert key[|text|] == ':';
    assert IndexOfColon(key) == |text| by {
      assert forall j :: 0 <= j < |text| ==> key[j] == text[j];
    }
    assert key[..|text|] == text;
    assert key[|text| + 1..] == nodeId;
    Java.IntToStringParses(installationId);
  }

  /** `buildV3Key`: the installation id, ':', the issue's node id; the two parts split back out. */
  function BuildV3Key(p: Payload): (key: string)
    ensures SplitKey(key) == Some((p.installation.id, p.issue.nodeId))
  {
    KeyOfSplits(p.installation.id, p.issue.nodeId);
    KeyOf(p.installation.id, p.issue.nodeId)
  }

  /** Two payloads share a key exactly when they share the installation id and the issue node id. */
  lemma BuildV3KeyInjective(p: Payload, q: Payload)
    ensures BuildV3Key(p) == BuildV3Key(q) <==>
            p.installation.id == q.installation.id && p.issue.nodeId == q.issue.nodeId
  {
    if BuildV3Key(p) == BuildV3Key(q) {
      assert SplitKey(BuildV3Key(p)) == SplitKey(BuildV3Key(q));
    }
  }

  /** The example key of installation 42 and node "abc". */
  lemma KeyExample()
    ensures KeyOf(42, "abc") == "42:abc"
  {
  }

  /** The assignee list, element by element, keeping `id` and renaming `node_id` to `nodeId`. */
  function MapAssignees(assignees: seq<Assignee>): (r: seq<NodeRef>)
    ensures |r| == |assignees|
    ensures forall i :: 0 <= i < |r| ==> r[i].id == assignees[i].id && r[i].nodeId == assignees[i].nodeId
  {
    if assignees == [] then []
    else [NodeRef(assignees[0].id, assignees[0].nodeId)] + MapAssignees(assignees[1..])
  }

  /** `mapV3Issue`: the issue projected into the target schema. */
  function MapV3Issue(p: Payload): (m: MappedIssue)
    ensures m.id == p.issue.id && m.nodeId == p.issue.nodeId && m.url == p.issue.url
    ensures m.body == p.issue.body && m.number == p.issue.number && m.title == p.issue.title
    ensures m.repository == NodeRef(p.repository.id, p.repository.nodeId)
    ensures m.author.login == p.issue.user.login
    ensures |m.assignees| == |p.issue.assignees|
    ensures forall i :: 0 <= i < |m.assignees| ==>
              m.assignees[i].id == p.issue.assignees[i].id && m.assignees[i].nodeId == p.issue.assignees[i].nodeId
    ensures |m.state| == |p.issue.state|
    ensures forall i :: 0 <= i < |m.state| ==> !Java.IsAsciiLower(m.state[i])
    ensures m.state == Java.ToUpperCase(p.issue.state)
    ensures m.updatedAt == p.issue.updatedAt && m.publishedAt == p.issue.createdAt
  {
    var issue := p.issue;
    MappedIssue(
      issue.id, issue.nodeId, issue.url,
      NodeRef(p.repository.id, p.repository.nodeId),
      Author(issue.user.login),
      MapAssignees(issue.assignees),
      issue.body, Java.ToUpperCase(issue.state), issue.number, issue.title,
      issue.updatedAt, issue.createdAt)
  }
}
