/** The names that one run's keys, devices and Connectors have on the service. */
module CiNames {
  datatype Lane = Linux | Macos | Windows

  datatype Runtime = Host | HardenedContainer

  datatype Profile = Full | Production | Soak

  datatype Purpose = Primary | Failing

  datatype RunCleanup = RunCleanup(runId: string, runAttempt: string, lane: Lane, runtime: Runtime, profile: Profile)

  function LaneText(lane: Lane): string {
    match lane
    case Linux => "linux"
    case Macos => "macos"
    case Windows => "windows"
  }

  function PurposeText(purpose: Purpose): string {
    match purpose
    case Primary => "primary"
    case Failing => "failure"
  }

  function RuntimeText(runtime: Runtime): string {
    match runtime
    case Host => "host"
    case HardenedContainer => "hardened_container"
  }

  function RuntimeCode(runtime: Runtime): char {
    match runtime
    case Host => 'h'
    case HardenedContainer => 'c'
  }

  predicate Digits(s: string) {
    forall i :: 0 <= i < |s| ==> '0' <= s[i] <= '9'
  }

  predicate PositiveInteger(s: string) {
    1 <= |s| <= 19 && s[0] != '0' && Digits(s)
  }

  predicate ValidRun(runId: string, runAttempt: string) {
    PositiveInteger(runId) && PositiveInteger(runAttempt)
  }

  const KEY_PREFIX := "qurl CLI journey v2 "
  const AGENT_PREFIX := "qurl-journey-v2-r"
  const CONNECTOR_PREFIX := "connector-cli-journey-v2-"

  function CredentialName(runId: string, runAttempt: string, lane: Lane, purpose: Purpose): string {
    KEY_PREFIX + (runId + "/" + (runAttempt + "/" + (LaneText(lane) + "/" + PurposeText(purpose))))
  }

  function CredentialNames(run: RunCleanup): seq<string> {
    [CredentialName(run.runId, run.runAttempt, run.lane, Primary),
     CredentialName(run.runId, run.runAttempt, run.lane, Failing)]
  }

  /** Labels and the codes that stand for them. */
  function Labels(profile: Profile): seq<(string, char)> {
    match profile
    case Full => [("smoke", 's'), ("crid", 'r'), ("sibling-a", 'a'), ("sibling-b", 'b'), ("failure", 'f')]
    case Production => [("smoke", 's'), ("failure", 'f')]
    case Soak => [("soak", 'k')]
  }

  function AgentId(runId: string, runAttempt: string, runtime: Runtime, code: char): string {
    AGENT_PREFIX + (runId + "-" + ("a" + (runAttempt + "-" + [RuntimeCode(runtime), code])))
  }

  function AgentIds(run: RunCleanup): seq<string> {
    var labels := Labels(run.profile);
    seq(|labels|, i requires 0 <= i < |labels| => AgentId(run.runId, run.runAttempt, run.runtime, labels[i].1))
  }

  function DeviceKeyName(agent: string): string {
    "agent:" + agent
  }

  function DeviceKeyNames(run: RunCleanup): seq<string> {
    var agents := AgentIds(run);
    seq(|agents|, i requires 0 <= i < |agents| => DeviceKeyName(agents[i]))
  }

  /** `digest` is the shortened hash of the material's parts. */
  function ConnectorIds(run: RunCleanup, digest: seq<string> -> string): seq<string> {
    var labels := Labels(run.profile);
    seq(|labels|, i requires 0 <= i < |labels| => CONNECTOR_PREFIX + digest(Material(run, labels[i].0)))
  }

  function Material(run: RunCleanup, part: string): seq<string> {
    ["qurl-cli-journey-v2", run.runId, run.runAttempt, RuntimeText(run.runtime), part]
  }

  function Description(run: RunCleanup): string {
    KEY_PREFIX + ("resource " + (run.runId + "/" + (run.runAttempt + "/" + RuntimeText(run.runtime))))
  }

  lemma Flat(a: string, b: string, c: string, d: string, e: string)
    ensures a + (b + (c + (d + e))) == a + b + c + d + e
  {
  }

  /** The names as the service and the test harness know them, for every run. */
  lemma CredentialsAsPublished(run: RunCleanup, purpose: Purpose)
    ensures CredentialName(run.runId, run.runAttempt, run.lane, purpose)
            == "qurl CLI journey v2 " + run.runId + "/" + run.runAttempt
               + "/" + (match run.lane case Linux => "linux" case Macos => "macos" case Windows => "windows")
               + "/" + (match purpose case Primary => "primary" case Failing => "failure")
    ensures CredentialNames(run) == [CredentialName(run.runId, run.runAttempt, run.lane, Primary),
                                     CredentialName(run.runId, run.runAttempt, run.lane, Failing)]
  {
    var lane, last := LaneText(run.lane), PurposeText(purpose);
    Flat(KEY_PREFIX, run.runId, "/", run.runAttempt, "/" + (lane + "/" + last));
    Flat(KEY_PREFIX + run.runId + "/" + run.runAttempt, "/", lane, "/", last);
  }

  lemma DescriptionAsPublished(run: RunCleanup)
    ensures Description(run)
            == "qurl CLI journey v2 " + "resource " + run.runId + "/" + run.runAttempt
               + "/" + (match run.runtime case Host => "host" case HardenedContainer => "hardened_container")
  {
    var last := RuntimeText(run.runtime);
    Flat(KEY_PREFIX, "resource ", run.runId, "/", run.runAttempt + "/" + last);
    Flat(KEY_PREFIX + "resource " + run.runId + "/", run.runAttempt, "/", last, "");
    assert run.runAttempt + ("/" + (last + "")) == run.runAttempt + "/" + last;
  }

  lemma AgentAsPublished(id: string, attempt: string, runtime: Runtime, code: char)
    ensures AgentId(id, attempt, runtime, code)
            == "qurl-journey-v2-r" + id + "-" + "a" + attempt + "-" + [if runtime == Host then 'h' else 'c', code]
  {
    var last := [RuntimeCode(runtime), code];
    Flat(AGENT_PREFIX, id, "-", "a", attempt + ("-" + last));
    Flat(AGENT_PREFIX + id + "-" + "a", attempt, "-", last, "");
    assert attempt + ("-" + (last + "")) == attempt + ("-" + last);
  }

  /** The labels of each kind of run, with their codes. */
  lemma LabelsAsPublished()
    ensures Labels(Full) == [("smoke", 's'), ("crid", 'r'), ("sibling-a", 'a'), ("sibling-b", 'b'), ("failure", 'f')]
    ensures Labels(Production) == [("smoke", 's'), ("failure", 'f')] && Labels(Soak) == [("soak", 'k')]
  {
  }

  /** Every label has its agent, its device key and its Connector. */
  lemma LabelsAreCovered(run: RunCleanup, digest: seq<string> -> string, i: nat)
    requires i < |Labels(run.profile)|
    ensures var (part, code) := Labels(run.profile)[i];
            var agent := AgentId(run.runId, run.runAttempt, run.runtime, code);
            && agent in AgentIds(run) && "agent:" + agent in DeviceKeyNames(run)
            && var runtime := match run.runtime case Host => "host" case HardenedContainer => "hardened_container";
               "connector-cli-journey-v2-"
               + digest(["qurl-cli-journey-v2", run.runId, run.runAttempt, runtime, part]) in ConnectorIds(run, digest)
    ensures |AgentIds(run)| == |DeviceKeyNames(run)| == |ConnectorIds(run, digest)| == |Labels(run.profile)|
  {
    hide AgentId;
    assert AgentIds(run)[i] == AgentId(run.runId, run.runAttempt, run.runtime, Labels(run.profile)[i].1);
    assert DeviceKeyNames(run)[i] == "agent:" + AgentIds(run)[i];
    assert ConnectorIds(run, digest)[i] == CONNECTOR_PREFIX + digest(Material(run, Labels(run.profile)[i].0));
  }

  /** Which run identities are canonical. */
  lemma RunIdentities(s: string)
    ensures PositiveInteger(s) <==>
              && 1 <= |s| <= 19 && s[0] in "123456789"
              && forall i :: 0 <= i < |s| ==> s[i] in "0123456789"
  {
    forall c: char
      ensures c in "0123456789" <==> '0' <= c <= '9'
      ensures c in "123456789" <==> '0' < c <= '9'
    {
      OneDigit(c);
    }
  }

  lemma OneDigit(c: char)
    ensures c in "0123456789" <==> '0' <= c <= '9'
    ensures c in "123456789" <==> '0' < c <= '9'
  {
    if '0' <= c <= '9' {
      assert "0123456789"[c as int - 48] == c;
    }
    if '0' < c <= '9' {
      assert "123456789"[c as int - 49] == c;
    }
  }

  // -------------------------------------------------------------- telling apart

  /** Text up to the first mark, and the text after it, are determined by the whole. */
  lemma SplitAtMark(a: string, x: string, b: string, y: string, mark: char)
    requires mark !in a && mark !in b && a + [mark] + x == b + [mark] + y
    ensures a == b && x == y
  {
    var s, t := a + [mark] + x, b + [mark] + y;
    assert s[|a|] == mark && t[|b|] == mark;
    assert forall i :: 0 <= i < |a| ==> s[i] == a[i];
    assert forall i :: 0 <= i < |b| ==> t[i] == b[i];
    assert a == s[..|a|] && b == t[..|b|];
    assert x == s[|a| + 1..] && y == t[|b| + 1..];
  }

  lemma AfterPrefix(prefix: string, x: string, y: string)
    requires prefix + x == prefix + y
    ensures x == y
  {
    assert (prefix + x)[|prefix|..] == x && (prefix + y)[|prefix|..] == y;
  }

  lemma NoMark(s: string, mark: char)
    requires Digits(s) && !('0' <= mark <= '9')
    ensures mark !in s
  {
  }

  lemma LanesDiffer(a: Lane, b: Lane)
    ensures '/' !in LaneText(a) && (LaneText(a) == LaneText(b) ==> a == b)
  {
    assert LaneText(a)[0] == 'l' || LaneText(a)[0] == 'm' || LaneText(a)[0] == 'w';
  }

  /** Main result: a credential name tells run, attempt, lane and purpose. */
  lemma CredentialNameTells(id: string, attempt: string, lane: Lane, purpose: Purpose,
                            id2: string, attempt2: string, lane2: Lane, purpose2: Purpose)
    requires ValidRun(id, attempt) && ValidRun(id2, attempt2)
    requires CredentialName(id, attempt, lane, purpose) == CredentialName(id2, attempt2, lane2, purpose2)
    ensures id == id2 && attempt == attempt2 && lane == lane2 && purpose == purpose2
  {
    NoMark(id, '/');
    NoMark(id2, '/');
    NoMark(attempt, '/');
    NoMark(attempt2, '/');
    var last, last2 := LaneText(lane) + "/" + PurposeText(purpose), LaneText(lane2) + "/" + PurposeText(purpose2);
    var rest, rest2 := attempt + "/" + last, attempt2 + "/" + last2;
    AfterPrefix(KEY_PREFIX, id + "/" + rest, id2 + "/" + rest2);
    SplitAtMark(id, rest, id2, rest2, '/');
    SplitAtMark(attempt, last, attempt2, last2, '/');
    LanesDiffer(lane, lane2);
    LanesDiffer(lane2, lane);
    SplitAtMark(LaneText(lane), PurposeText(purpose), LaneText(lane2), PurposeText(purpose2), '/');
    assert PurposeText(purpose)[0] == PurposeText(purpose2)[0];
  }

  /** Main result: an agent ID, and so a device-key name, tells run, attempt, runtime
      and label code. */
  lemma AgentIdTells(id: string, attempt: string, runtime: Runtime, code: char,
                     id2: string, attempt2: string, runtime2: Runtime, code2: char)
    requires ValidRun(id, attempt) && ValidRun(id2, attempt2)
    requires AgentId(id, attempt, runtime, code) == AgentId(id2, attempt2, runtime2, code2)
    ensures id == id2 && attempt == attempt2 && runtime == runtime2 && code == code2
  {
    NoMark(id, '-');
    NoMark(id2, '-');
    NoMark(attempt, '-');
    NoMark(attempt2, '-');
    var last, last2 := [RuntimeCode(runtime), code], [RuntimeCode(runtime2), code2];
    var rest, rest2 := attempt + "-" + last, attempt2 + "-" + last2;
    AfterPrefix(AGENT_PREFIX, id + "-" + ("a" + rest), id2 + "-" + ("a" + rest2));
    SplitAtMark(id, "a" + rest, id2, "a" + rest2, '-');
    AfterPrefix("a", rest, rest2);
    SplitAtMark(attempt, last, attempt2, last2, '-');
    assert last[0] == last2[0] && last[1] == last2[1];
  }

  /** A resource's description tells run, attempt and runtime. */
  lemma DescriptionTells(run: RunCleanup, other: RunCleanup)
    requires ValidRun(run.runId, run.runAttempt) && ValidRun(other.runId, other.runAttempt)
    requires Description(run) == Description(other)
    ensures run.runId == other.runId && run.runAttempt == other.runAttempt && run.runtime == other.runtime
  {
    NoMark(run.runId, '/');
    NoMark(other.runId, '/');
    NoMark(run.runAttempt, '/');
    NoMark(other.runAttempt, '/');
    var last, last2 := RuntimeText(run.runtime), RuntimeText(other.runtime);
    var rest, rest2 := run.runAttempt + "/" + last, other.runAttempt + "/" + last2;
    AfterPrefix(KEY_PREFIX, "resource " + (run.runId + "/" + rest), "resource " + (other.runId + "/" + rest2));
    AfterPrefix("resource ", run.runId + "/" + rest, other.runId + "/" + rest2);
    SplitAtMark(run.runId, rest, other.runId, rest2, '/');
    SplitAtMark(run.runAttempt, last, other.runAttempt, last2, '/');
    assert last[0] == last2[0];
  }

  /** No credential name is a device-key name. */
  lemma NamesDisjoint(run: RunCleanup, other: RunCleanup, name: string)
    requires name in CredentialNames(run)
    ensures name !in DeviceKeyNames(other)
  {
    assert name[0] == 'q';
    forall i | 0 <= i < |DeviceKeyNames(other)|
      ensures DeviceKeyNames(other)[i] != name
    {
      assert DeviceKeyNames(other)[i][0] == 'a';
    }
  }

  /** Main result: runs with another ID or another attempt share no credential name,
      no device-key name, no agent ID, no resource description and, when the digest tells materials apart, no
      Connector ID. */
  lemma RunsShareNothing(run: RunCleanup, other: RunCleanup, digest: seq<string> -> string, name: string)
    requires ValidRun(run.runId, run.runAttempt) && ValidRun(other.runId, other.runAttempt)
    requires run.runId != other.runId || run.runAttempt != other.runAttempt
    ensures !(name in CredentialNames(run) && name in CredentialNames(other))
    ensures !(name in AgentIds(run) && name in AgentIds(other))
    ensures !(name in DeviceKeyNames(run) && name in DeviceKeyNames(other))
    ensures Description(run) != Description(other)
    ensures (forall a, b | digest(a) == digest(b) :: a == b)
            ==> !(name in ConnectorIds(run, digest) && name in ConnectorIds(other, digest))
  {
    if name in CredentialNames(run) && name in CredentialNames(other) {
      var p, q: Purpose :| name == CredentialName(run.runId, run.runAttempt, run.lane, p)
                           && name == CredentialName(other.runId, other.runAttempt, other.lane, q);
      CredentialNameTells(run.runId, run.runAttempt, run.lane, p, other.runId, other.runAttempt, other.lane, q);
      assert false;
    }
    if Description(run) == Description(other) {
      DescriptionTells(run, other);
      assert false;
    }
    AgentsApart(run, other, name);
    if name in DeviceKeyNames(run) && name in DeviceKeyNames(other) {
      var i :| 0 <= i < |DeviceKeyNames(run)| && DeviceKeyNames(run)[i] == name;
      var j :| 0 <= j < |DeviceKeyNames(other)| && DeviceKeyNames(other)[j] == name;
      AfterPrefix("agent:", AgentIds(run)[i], AgentIds(other)[j]);
      AgentsApart(run, other, AgentIds(run)[i]);
      assert false;
    }
    if (forall a, b | digest(a) == digest(b) :: a == b) && name in ConnectorIds(run, digest)
        && name in ConnectorIds(other, digest) {
      var i :| 0 <= i < |ConnectorIds(run, digest)| && ConnectorIds(run, digest)[i] == name;
      var j :| 0 <= j < |ConnectorIds(other, digest)| && ConnectorIds(other, digest)[j] == name;
      var m, n := Material(run, Labels(run.profile)[i].0), Material(other, Labels(other.profile)[j].0);
      AfterPrefix(CONNECTOR_PREFIX, digest(m), digest(n));
      MaterialsDiffer(run, Labels(run.profile)[i].0, other, Labels(other.profile)[j].0);
      assert false;
    }
  }

  lemma MaterialsDiffer(run: RunCleanup, part: string, other: RunCleanup, part2: string)
    requires run.runId != other.runId || run.runAttempt != other.runAttempt
    ensures Material(run, part) != Material(other, part2)
  {
    assert Material(run, part)[1] == run.runId && Material(run, part)[2] == run.runAttempt;
    assert Material(other, part2)[1] == other.runId && Material(other, part2)[2] == other.runAttempt;
  }

  lemma AgentsApart(run: RunCleanup, other: RunCleanup, name: string)
    requires ValidRun(run.runId, run.runAttempt) && ValidRun(other.runId, other.runAttempt)
    requires run.runId != other.runId || run.runAttempt != other.runAttempt
    ensures !(name in AgentIds(run) && name in AgentIds(other))
  {
    if name in AgentIds(run) && name in AgentIds(other) {
      var i :| 0 <= i < |AgentIds(run)| && AgentIds(run)[i] == name;
      var j :| 0 <= j < |AgentIds(other)| && AgentIds(other)[j] == name;
      AgentIdTells(run.runId, run.runAttempt, run.runtime, Labels(run.profile)[i].1,
                   other.runId, other.runAttempt, other.runtime, Labels(other.profile)[j].1);
      assert false;
    }
  }
}
