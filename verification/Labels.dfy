/** Label keys, label merging and equality-based selectors. */
module Labels {
  const LABEL_APP_NAME := "app.kubernetes.io/name"
  const LABEL_APP_INSTANCE := "app.kubernetes.io/instance"
  const LABEL_APP_MANAGED_BY := "app.kubernetes.io/managed-by"
  const LABEL_APP_COMPONENT := "app.kubernetes.io/component"
  const LABEL_MONITOR_NAME := "pgpilot.io/monitor"
  const ANNOTATION_CONFIG_HASH := "pgpilot.io/config-hash"
  const APP_NAME := "pgpilot-monitor"
  const MANAGED_BY := "pgpilot-operator"

  type StringMap = map<string, string>

  function SystemLabels(monitorName: string): StringMap {
    map[LABEL_APP_NAME := APP_NAME,
        LABEL_APP_INSTANCE := monitorName,
        LABEL_APP_MANAGED_BY := MANAGED_BY,
        LABEL_APP_COMPONENT := "pgwatch",
        LABEL_MONITOR_NAME := monitorName]
  }

  /** MergeLabels and MergeAnnotations: user entries first, then system entries over them. */
  function MergeLabels(system: StringMap, user: StringMap): StringMap {
    var merged := map[] + user;
    merged + system
  }

  /** A user label survives exactly when its key is not one of the five system keys, or it
      says the same. The reference documentation protects two whole prefixes; other keys
      under them, `app.kubernetes.io/version` for one, stay with the user. */
  lemma UserLabelSurvivesIff(monitorName: string, user: StringMap, key: string)
    requires key in user
    ensures var merged := MergeLabels(SystemLabels(monitorName), user);
            && merged.Keys == SystemLabels(monitorName).Keys + user.Keys
            && (merged[key] == user[key] <==>
                  key !in SystemLabels(monitorName) || SystemLabels(monitorName)[key] == user[key])
    ensures key == "app.kubernetes.io/version" ==>
              MergeLabels(SystemLabels(monitorName), user)[key] == user[key]
  {
    var version := "app.kubernetes.io/version";
    assert version[18] == 'v' && LABEL_APP_NAME[18] == 'n' && LABEL_APP_INSTANCE[18] == 'i';
    assert LABEL_APP_MANAGED_BY[18] == 'm' && LABEL_APP_COMPONENT[18] == 'c' && |LABEL_MONITOR_NAME| == 18;
  }

  function ResourceName(monitorName: string): string {
    "pgpilot-" + monitorName
  }

  function ConfigMapName(monitorName: string): string {
    ResourceName(monitorName) + "-config"
  }

  /** The selector every generated object uses. */
  function Selector(monitorName: string): StringMap {
    map[LABEL_APP_INSTANCE := monitorName, LABEL_APP_NAME := APP_NAME]
  }

  /** Kubernetes `matchLabels`. */
  predicate Matches(selector: StringMap, labels: StringMap) {
    forall k | k in selector :: k in labels && labels[k] == selector[k]
  }

  /** A selector asks for the monitor's name and the application's, and for nothing else. */
  lemma SelectorIff(monitorName: string, labels: StringMap)
    ensures Matches(Selector(monitorName), labels) <==>
            && "app.kubernetes.io/instance" in labels && labels["app.kubernetes.io/instance"] == monitorName
            && "app.kubernetes.io/name" in labels && labels["app.kubernetes.io/name"] == "pgpilot-monitor"
  {
    DistinctKeys();
    assert LABEL_APP_INSTANCE in Selector(monitorName) && LABEL_APP_NAME in Selector(monitorName);
  }

  /** What every labelled object of a monitor says, whatever the user adds. */
  predicate SaysWhose(labels: StringMap, monitorName: string) {
    && "app.kubernetes.io/name" in labels && labels["app.kubernetes.io/name"] == "pgpilot-monitor"
    && "app.kubernetes.io/instance" in labels && labels["app.kubernetes.io/instance"] == monitorName
    && "app.kubernetes.io/managed-by" in labels && labels["app.kubernetes.io/managed-by"] == "pgpilot-operator"
    && "app.kubernetes.io/component" in labels && labels["app.kubernetes.io/component"] == "pgwatch"
    && "pgpilot.io/monitor" in labels && labels["pgpilot.io/monitor"] == monitorName
  }

  lemma SystemLabelsSayWhose(monitorName: string, user: StringMap)
    ensures SaysWhose(SystemLabels(monitorName), monitorName)
    ensures SaysWhose(MergeLabels(SystemLabels(monitorName), user), monitorName)
  {
    DistinctKeys();
    hide SystemLabels;
    var system := SystemLabels(monitorName);
    SystemLabelsAre(monitorName);
    assert forall k | k in system :: MergeLabels(system, user)[k] == system[k];
  }

  lemma SystemLabelsAre(monitorName: string)
    ensures var system := SystemLabels(monitorName);
            && SaysWhose(system, monitorName)
            && system.Keys == {"app.kubernetes.io/name", "app.kubernetes.io/instance", "app.kubernetes.io/managed-by",
                               "app.kubernetes.io/component", "pgpilot.io/monitor"}
  {
    DistinctKeys();
    assert LABEL_APP_MANAGED_BY[18] == 'm' && LABEL_APP_COMPONENT[18] == 'c' && |LABEL_MONITOR_NAME| == 18;
  }

  /** No user label, whatever its key, can pull an object of one monitor out of its own
      selector or into the selector of another. */
  lemma SelectorIsolates(mine: string, other: string, user: StringMap)
    ensures Matches(Selector(mine), MergeLabels(SystemLabels(other), user)) <==> mine == other
  {
    var labels := MergeLabels(SystemLabels(other), user);
    assert labels[LABEL_APP_INSTANCE] == other && labels[LABEL_APP_NAME] == APP_NAME by {
      DistinctKeys();
    }
    assert LABEL_APP_INSTANCE in Selector(mine) && Selector(mine)[LABEL_APP_INSTANCE] == mine by {
      DistinctKeys();
    }
  }

  lemma DistinctKeys()
    ensures LABEL_APP_NAME != LABEL_APP_INSTANCE
    ensures LABEL_APP_NAME != LABEL_APP_MANAGED_BY && LABEL_APP_NAME != LABEL_APP_COMPONENT
    ensures LABEL_APP_NAME != LABEL_MONITOR_NAME && LABEL_APP_INSTANCE != LABEL_APP_MANAGED_BY
    ensures LABEL_APP_INSTANCE != LABEL_APP_COMPONENT && LABEL_APP_INSTANCE != LABEL_MONITOR_NAME
  {
    assert LABEL_APP_NAME[18] == 'n' && LABEL_APP_INSTANCE[18] == 'i';
    assert LABEL_APP_MANAGED_BY[18] == 'm' && LABEL_APP_COMPONENT[18] == 'c';
    assert |LABEL_MONITOR_NAME| == 18;
  }

  lemma ResourceNameInjective(a: string, b: string)
    ensures ResourceName(a) == ResourceName(b) <==> a == b
    ensures ConfigMapName(a) == ConfigMapName(b) <==> a == b
  {
    assert ResourceName(a)[8..] == a && ResourceName(b)[8..] == b;
    assert ConfigMapName(a)[..|ConfigMapName(a)| - 7] == ResourceName(a);
    assert ConfigMapName(b)[..|ConfigMapName(b)| - 7] == ResourceName(b);
  }
}
