/**
 * The placeholder database credentials ConfigService.createSecret stores,
 * and their Base64 form.
 */
module Credentials {
  import Base64

  /** The placeholder credentials written to the Secret, before encoding. */
  const SecretUsername: string := "admin"
  const SecretPassword: string := "TempPassword123!"

  /** The Secret's data: exactly the two credential keys, each Base64-encoded. */
  function SecretData(): (data: map<string, string>)
    ensures data.Keys == {"db-username", "db-password"}
    ensures |data["db-username"]| % 4 == 0 && Base64.Decode(data["db-username"]) == Base64.AsciiBytes(SecretUsername)
    ensures |data["db-password"]| % 4 == 0 && Base64.Decode(data["db-password"]) == Base64.AsciiBytes(SecretPassword)
  {
    CredentialsAscii();
    AsciiRoundTrip(SecretUsername);
    AsciiRoundTrip(SecretPassword);
    map["db-username" := Base64.Encode(Base64.AsciiBytes(SecretUsername)),
        "db-password" := Base64.Encode(Base64.AsciiBytes(SecretPassword))]
  }

  /** The Base64 form of an ASCII string decodes back to its bytes. */
  lemma AsciiRoundTrip(s: string)
    requires forall i :: 0 <= i < |s| ==> s[i] as int < 128
    ensures |Base64.Encode(Base64.AsciiBytes(s))| % 4 == 0
    ensures Base64.Decode(Base64.Encode(Base64.AsciiBytes(s))) == Base64.AsciiBytes(s)
  {
    Base64.DecodeEncode(Base64.AsciiBytes(s));
  }

  /** Both credentials are plain ASCII, so `getBytes` gives one byte per character. */
  lemma CredentialsAscii()
    ensures forall i :: 0 <= i < |SecretUsername| ==> SecretUsername[i] as int < 128
    ensures forall i :: 0 <= i < |SecretPassword| ==> SecretPassword[i] as int < 128
  {
  }

  lemma UsernameEncoded()
    ensures Base64.Encode(Base64.AsciiBytes(SecretUsername)) == "YWRtaW4="
  {
    assert Base64.AsciiBytes(SecretUsername) == [97, 100, 109] + [105, 110];
    assert Base64.EncodeGroup([97, 100, 109]) == "YWRt";
    assert Base64.Encode([105, 110]) == "aW4=";
    Base64.EncodeAppendGroup([97, 100, 109], [105, 110]);
  }

  lemma PasswordBytes()
    ensures Base64.AsciiBytes(SecretPassword) ==
      [84, 101, 109] + ([112, 80, 97] + ([115, 115, 119] + ([111, 114, 100, 49, 50, 51, 33])))
  {
  }

  lemma PasswordTailGroups()
    ensures Base64.EncodeGroup([111, 114, 100]) == "b3Jk"
    ensures Base64.EncodeGroup([49, 50, 51]) == "MTIz"
    ensures Base64.Encode([33]) == "IQ=="
  {
  }

  lemma PasswordTailEncoded()
    ensures Base64.Encode([111, 114, 100, 49, 50, 51, 33]) == "b3JkMTIzIQ=="
  {
    var g4, g5, g6: seq<Base64.byte> := [111, 114, 100], [49, 50, 51], [33];
    PasswordTailGroups();
    Base64.EncodeAppendGroup(g5, g6);
    Base64.EncodeAppendGroup(g4, g5 + g6);
    assert g4 + (g5 + g6) == [111, 114, 100, 49, 50, 51, 33];
    assert "b3Jk" + ("MTIz" + "IQ==") == "b3JkMTIzIQ==";
  }

  lemma EncodeThreeGroups(g1: seq<Base64.byte>, g2: seq<Base64.byte>, g3: seq<Base64.byte>, tail: seq<Base64.byte>)
    requires |g1| == |g2| == |g3| == 3
    ensures Base64.Encode(g1 + (g2 + (g3 + tail))) ==
      Base64.EncodeGroup(g1) + (Base64.EncodeGroup(g2) + (Base64.EncodeGroup(g3) + Base64.Encode(tail)))
  {
    Base64.EncodeAppendGroup(g3, tail);
    Base64.EncodeAppendGroup(g2, g3 + tail);
    Base64.EncodeAppendGroup(g1, g2 + (g3 + tail));
  }

  lemma PasswordHeadEncoded()
    ensures Base64.EncodeGroup([84, 101, 109]) == "VGVt"
    ensures Base64.EncodeGroup([112, 80, 97]) == "cFBh"
    ensures Base64.EncodeGroup([115, 115, 119]) == "c3N3"
  {
  }

  lemma PasswordEncoded()
    ensures Base64.Encode(Base64.AsciiBytes(SecretPassword)) == "VGVtcFBhc3N3b3JkMTIzIQ=="
  {
    PasswordBytes();
    PasswordTailEncoded();
    PasswordHeadEncoded();
    EncodeThreeGroups([84, 101, 109], [112, 80, 97], [115, 115, 119], [111, 114, 100, 49, 50, 51, 33]);
    assert "VGVt" + ("cFBh" + ("c3N3" + "b3JkMTIzIQ==")) == "VGVtcFBhc3N3b3JkMTIzIQ==";
  }

  /** The encoded values, as they appear in the stored Secret. */
  lemma SecretDataEncoded()
    ensures SecretData()["db-username"] == "YWRtaW4="
    ensures SecretData()["db-password"] == "VGVtcFBhc3N3b3JkMTIzIQ=="
  {
    UsernameEncoded();
    PasswordEncoded();
  }
}
