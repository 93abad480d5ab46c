/**
 * The network names `setup` derives from the device id: the access-point
 * name of the provisioning portal and the WiFi/mDNS hostname.
 */
module Naming {
  import opened Wrappers
  import opened Identity

  const ApPrefix: string := "ESP32-Monitor-"
  const HostPrefix: string := "esp32-monitor-"

  /** The fixed passphrase of the provisioning access point. */
  const ApPassword: string := "password123"

  /** SSID of the provisioning access point. */
  function ApName(id: string): string {
    ApPrefix + id
  }

  /** WiFi hostname, also the mDNS name (`<hostname>.local`). */
  function Hostname(id: string): string {
    HostPrefix + id
  }

  /** Recovers the device id from a hostname; None if the prefix is missing. */
  function IdOfHostname(h: string): Option<string> {
    if |HostPrefix| <= |h| && h[..|HostPrefix|] == HostPrefix then Some(h[|HostPrefix|..]) else None
  }

  /** The hostname determines the id it was built from. */
  lemma HostnameRoundTrip(id: string)
    ensures IdOfHostname(Hostname(id)) == Some(id)
  {
    assert Hostname(id)[..|HostPrefix|] == HostPrefix;
    assert Hostname(id)[|HostPrefix|..] == id;
  }

  /** ASCII lower-casing of one character. */
  function LowerChar(c: char): char {
    if 'A' <= c <= 'Z' then (c as int - 'A' as int + 'a' as int) as char else c
  }

  function Lower(s: string): (r: string)
    ensures |r| == |s|
  {
    seq(|s|, i requires 0 <= i < |s| => LowerChar(s[i]))
  }

  /** The AP name and the hostname differ only in letter case. */
  lemma ApNameLowersToHostname(id: string)
    requires WellFormedId(id)
    ensures Lower(ApName(id)) == Hostname(id)
  {
    var a, h := ApName(id), Hostname(id);
    assert |a| == |h|;
    forall i | 0 <= i < |a|
      ensures Lower(a)[i] == h[i]
    {
      if i >= |ApPrefix| {
        assert a[i] == id[i - |ApPrefix|] == h[i];
      } else {
        assert ApPrefix == ['E', 'S', 'P', '3', '2', '-', 'M', 'o', 'n', 'i', 't', 'o', 'r', '-'];
        assert HostPrefix == ['e', 's', 'p', '3', '2', '-', 'm', 'o', 'n', 'i', 't', 'o', 'r', '-'];
      }
    }
  }

  predicate IsLdhChar(c: char) {
    ('a' <= c <= 'z') || ('A' <= c <= 'Z') || ('0' <= c <= '9') || c == '-'
  }

  /**
   * A host-name label as section 2.1 of RFC 1123 allows it: 1 to 63
   * letters, digits and hyphens, not starting or ending with a hyphen.
   */
  predicate IsDnsLabel(s: string) {
    && 1 <= |s| <= 63
    && (forall i :: 0 <= i < |s| ==> IsLdhChar(s[i]))
    && s[0] != '-' && s[|s| - 1] != '-'
  }

  /** The hostname of a well-formed id is a valid DNS label, so `<hostname>.local` resolves over mDNS. */
  lemma HostnameIsDnsLabel(id: string)
    requires WellFormedId(id)
    ensures IsDnsLabel(Hostname(id))
  {
    var h := Hostname(id);
    assert HostPrefix == ['e', 's', 'p', '3', '2', '-', 'm', 'o', 'n', 'i', 't', 'o', 'r', '-'];
    forall i | 0 <= i < |h|
      ensures IsLdhChar(h[i])
    {
      if i >= |HostPrefix| {
        assert h[i] == id[i - |HostPrefix|];
      }
    }
  }
}
