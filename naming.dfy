/**
 * Child-resource naming (BaseService.getResourceName): every object the
 * operator writes for an application is named `<appName>-<resourceType>`.
 */
module Naming {

  /** The deterministic name of an application's child resource. */
  function ResourceName(appName: string, resourceType: string): (r: string)
    ensures |r| == |appName| + 1 + |resourceType|
    ensures r[..|appName| + 1] == appName + "-"
    ensures r[|appName| + 1..] == resourceType
  {
    appName + "-" + resourceType
  }

  /** For a fixed application, distinct type tags give distinct names. */
  lemma ResourceNameInjective(appName: string, t1: string, t2: string)
    ensures ResourceName(appName, t1) == ResourceName(appName, t2) <==> t1 == t2
  {
  }

  /** For a fixed type tag, distinct applications give distinct names. */
  lemma ResourceNameInjectiveInApp(a1: string, a2: string, resourceType: string)
    ensures ResourceName(a1, resourceType) == ResourceName(a2, resourceType) <==> a1 == a2
  {
    if ResourceName(a1, resourceType) == ResourceName(a2, resourceType) {
      var p1, p2 := a1 + "-", a2 + "-";
      assert |a1| == |a2|;
      assert p1 == p2;
      assert a1 == p1[..|a1|] == p2[..|a2|] == a2;
    }
  }

  /** The four tags the synchronisers use give four different names. */
  lemma DerivedNamesDistinct(appName: string)
    ensures ResourceName(appName, "app") != ResourceName(appName, "service")
    ensures ResourceName(appName, "app") != ResourceName(appName, "config")
    ensures ResourceName(appName, "app") != ResourceName(appName, "secret")
    ensures ResourceName(appName, "service") != ResourceName(appName, "config")
    ensures ResourceName(appName, "service") != ResourceName(appName, "secret")
    ensures ResourceName(appName, "config") != ResourceName(appName, "secret")
  {
    ResourceNameInjective(appName, "app", "service");
    ResourceNameInjective(appName, "app", "config");
    ResourceNameInjective(appName, "app", "secret");
    ResourceNameInjective(appName, "service", "config");
    ResourceNameInjective(appName, "service", "secret");
    ResourceNameInjective(appName, "config", "secret");
  }
}
