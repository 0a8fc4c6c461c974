/**
 * How a host is named in the mayhem service: a random four-character host id
 * drawn from lower-case letters and digits, the instance name "cattle-<id>",
 * and the hostname "<instance name>.example.net" derived from it.
 */
module Naming {
  import opened Options

  /** string.ascii_lowercase */
  const Lowercase: string := "abcdefghijklmnopqrstuvwxyz"
  /** string.digits */
  const Digits: string := "0123456789"
  /** The alphabet every character of a host id is chosen from. */
  const Choices: string := Lowercase + Digits

  const HostIdLength: nat := 4
  const Prefix: string := "cattle-"
  const Domain: string := ".example.net"

  predicate IsChoice(c: char) {
    c in Choices
  }

  /** The alphabet is exactly the lower-case ASCII letters and the decimal digits. */
  lemma ChoiceIsLowercaseOrDigit(c: char)
    ensures IsChoice(c) <==> 'a' <= c <= 'z' || '0' <= c <= '9'
  {
    if 'a' <= c <= 'z' {
      assert Choices[c as int - 'a' as int] == c;
    } else if '0' <= c <= '9' {
      assert Choices[|Lowercase| + (c as int - '0' as int)] == c;
    } else {
      assert c !in Lowercase;
      assert c !in Digits;
    }
  }

  predicate IsHostId(s: string) {
    |s| == HostIdLength && forall i :: 0 <= i < |s| ==> IsChoice(s[i])
  }

  /** The outcome of choosing HostIdLength characters from Choices. */
  type HostId = s: string | IsHostId(s) witness "aaaa"

  /** The instance name the publisher builds from a host id. */
  function InstanceName(hostId: HostId): (name: string)
    ensures |name| == |Prefix| + HostIdLength
    ensures name[..|Prefix|] == Prefix
    ensures forall i :: |Prefix| <= i < |name| ==> 'a' <= name[i] <= 'z' || '0' <= name[i] <= '9'
  {
    var name := Prefix + hostId;
    forall i | |Prefix| <= i < |name|
      ensures 'a' <= name[i] <= 'z' || '0' <= name[i] <= '9'
    {
      ChoiceIsLowercaseOrDigit(hostId[i - |Prefix|]);
    }
    name
  }

  /** Recovers the host id from an instance name, if it has the generated shape. */
  function HostIdOf(name: string): (r: Option<HostId>)
  {
    if |name| == |Prefix| + HostIdLength && name[..|Prefix|] == Prefix && IsHostId(name[|Prefix|..])
    then Some(name[|Prefix|..])
    else None
  }

  /** Instance names and host ids are in one-to-one correspondence. */
  lemma InstanceNameRoundTrip(hostId: HostId, name: string)
    ensures HostIdOf(name) == Some(hostId) <==> InstanceName(hostId) == name
  {
    if InstanceName(hostId) == name {
      assert name[|Prefix|..] == hostId;
    }
    if HostIdOf(name) == Some(hostId) {
      assert name == name[..|Prefix|] + name[|Prefix|..];
    }
  }

  /** The hostname derived from an instance name when a message is constructed. */
  function Hostname(instanceName: string): (host: string)
    ensures |host| == |instanceName| + |Domain|
    ensures host[..|instanceName|] == instanceName
    ensures host[|instanceName|..] == Domain
  {
    instanceName + Domain
  }

  /** Recovers the instance name from a hostname in the service's domain. */
  function InstanceNameOf(host: string): (r: Option<string>)
  {
    if |host| >= |Domain| && host[|host| - |Domain|..] == Domain
    then Some(host[..|host| - |Domain|])
    else None
  }

  /** Deriving a hostname loses nothing: the hostname determines the instance name. */
  lemma HostnameRoundTrip(instanceName: string, host: string)
    ensures InstanceNameOf(host) == Some(instanceName) <==> Hostname(instanceName) == host
  {
    if Hostname(instanceName) == host {
      assert host[|host| - |Domain|..] == Domain;
      assert host[..|host| - |Domain|] == instanceName;
    }
    if InstanceNameOf(host) == Some(instanceName) {
      assert host == host[..|host| - |Domain|] + host[|host| - |Domain|..];
    }
  }
}
