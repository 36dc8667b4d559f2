// The topic layout every release before 0.15.0 published (internal/layout/legacy.go), and what an instance
// name has had to be since (internal/layout/layout.go).
module Legacy {
  import opened Text

  /** strings.TrimRight(root, "/") */
  function TrimRoot(root: string): (r: string)
    ensures r == "" || r[|r| - 1] != '/'
    ensures SingleLevel(root) ==> r == root
  {
    if root == "" || root[|root| - 1] != '/' then root else TrimRoot(root[..|root| - 1])
  }

  /** What MQTT_TOPIC must be since 0.15.0: one level, and no wildcard. */
  predicate ValidName(s: string) {
    s != "" && SingleLevel(s) && '+' !in s && '#' !in s
  }

  function LegacyBridge(root: string): string {
    TrimRoot(root) + "/status"
  }

  function LegacyBase(root: string, device: string): string {
    TrimRoot(root) + "/" + device
  }

  function LegacyAvailability(root: string, device: string): string {
    LegacyBase(root, device) + "/availability"
  }

  function LegacyConnectionState(root: string, device: string): string {
    LegacyBase(root, device) + "/connection_state"
  }

  function LegacyState(root: string, device: string, path: string): string {
    LegacyBase(root, device) + "/" + path + "/state"
  }

  function LegacyCommand(root: string, device: string, path: string): string {
    LegacyBase(root, device) + "/" + path + "/set"
  }
}
