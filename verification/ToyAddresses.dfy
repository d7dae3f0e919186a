/** A text form of addresses that satisfies the assumed law. */
module ToyAddresses {
  import opened Wrappers
  import opened Bytes
  import opened Text
  import opened Ice

  /** One visible character per octet. */
  function ShowOctets(octets: Bytes): (s: string)
    ensures |s| == |octets|
  {
    seq(|octets|, i requires 0 <= i < |octets| => ((octets[i] as int) + 0x4E00) as char)
  }

  predicate IsShown(s: string) {
    forall i :: 0 <= i < |s| ==> 0x4E00 <= s[i] as int < 0x4F00
  }

  function ReadOctets(s: string): (octets: Bytes)
    requires IsShown(s)
    ensures |octets| == |s|
  {
    seq(|s|, i requires 0 <= i < |s| => s[i] as int - 0x4E00)
  }

  function ToyAddresses(): (x: IpText) {
    IpText((ip: Ip) => ShowOctets(ip.octets),
           s => if !IsShown(s) then None else if |s| == 4 then Some(V4(ReadOctets(s)))
                else if |s| == 16 then Some(V6(ReadOctets(s))) else None)
  }

  /** A text form of addresses with the assumed law exists. */
  lemma AddressTextIsConsistent()
    ensures IpLaw(ToyAddresses())
  {
    forall ip | IpOk(ip)
      ensures IsWord(ToyAddresses().show(ip)) && ToyAddresses().parse(ToyAddresses().show(ip)) == Some(ip)
    {
      assert ReadOctets(ShowOctets(ip.octets)) == ip.octets;
    }
  }
}
