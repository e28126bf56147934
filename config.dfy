/**
 * The configuration synchroniser (ConfigService): derives the ConfigMap
 * holding `application.properties` and the Secret holding the placeholder
 * database credentials, writes the ConfigMap and then the Secret, and
 * deletes both by name.
 */
module Config {
  import opened Wrappers
  import opened Crd
  import opened Naming
  import opened Kube
  import Base64
  import opened Credentials

  const HeaderUk: string := "# конфігурація спринг бут аплікації\n"
  const HeaderEn: string := "# spring boot application configuration\n"
  const HeaderRu: string := "# конфигурация спринг бут приложения\n"
  /** The three comment lines every properties text opens with. */
  const CommentLines: string := HeaderUk + HeaderEn + HeaderRu

  const DbCommentUk: string := "\n# налаштування бази даних\n"
  const DbCommentEn: string := "# database configuration\n"
  const DbCommentRu: string := "# настройки базы данных\n"
  /** A blank line and three comment lines introducing the datasource settings. */
  const DatasourceComments: string := DbCommentUk + DbCommentEn + DbCommentRu

  const UrlPrefix: string := "spring.datasource.url=jdbc:mysql://${DB_HOST:localhost}:${DB_PORT:3306}/"
  const UsernameLine: string := "spring.datasource.username=${DB_USERNAME:admin}\n"
  const PasswordLine: string := "spring.datasource.password=${DB_PASSWORD:TempPassword123!}\n"

  /** The placeholder naming the database; it defaults to the application's name. */
  function DbNamePlaceholder(appName: string): string {
    "${DB_NAME:" + appName + "}"
  }

  /** The datasource URL, every part an overridable placeholder. */
  function UrlLine(appName: string): string {
    UrlPrefix + DbNamePlaceholder(appName) + "\n"
  }

  /** The three datasource lines: url, username, password. */
  function DatasourceLines(appName: string): string {
    UrlLine(appName) + UsernameLine + PasswordLine
  }

  /** The four lines present whatever the spec says. */
  function BaseProperties(appName: string): string {
    CommentLines + "spring.application.name=" + appName + "\n"
  }

  lemma SuffixOfConcat(x: string, y: string)
    ensures (x + y)[|x|..] == y
  {
  }

  lemma Assoc(x: string, y: string, z: string)
    ensures (x + y) + z == x + (y + z)
  {
  }

  /**
   * The `application.properties` text: the comment header and the
   * application name always and first; the datasource lines exactly when
   * the database is enabled, and then last.
   */
  function ApplicationProperties(app: App): (text: string)
    ensures |text| >= |BaseProperties(app.name)|
    ensures text[..|BaseProperties(app.name)|] == BaseProperties(app.name)
    ensures text[..|CommentLines|] == CommentLines
    ensures !DatabaseEnabled(app.spec) ==> |text| == |BaseProperties(app.name)|
    ensures DatabaseEnabled(app.spec) ==>
      var tail := DatasourceLines(app.name);
      |text| > |BaseProperties(app.name)| + |tail| && text[|text| - |tail|..] == tail
  {
    BaseStartsWithComments(app.name);
    PrefixOfConcat(BaseProperties(app.name), if DatabaseEnabled(app.spec) then DatasourceComments + DatasourceLines(app.name) else "");
    SuffixOfConcat(BaseProperties(app.name) + DatasourceComments, DatasourceLines(app.name));
    Assoc(BaseProperties(app.name), DatasourceComments, DatasourceLines(app.name));
    BaseProperties(app.name) + if DatabaseEnabled(app.spec) then DatasourceComments + DatasourceLines(app.name) else ""
  }

  lemma PrefixOfConcat(x: string, y: string)
    ensures |x + y| == |x| + |y| && (x + y)[..|x|] == x
  {
  }

  /** The fixed properties open with the three comment lines. */
  lemma BaseStartsWithComments(appName: string)
    ensures |BaseProperties(appName)| >= |CommentLines|
    ensures BaseProperties(appName)[..|CommentLines|] == CommentLines
  {
    var line := "spring.application.name=" + appName + "\n";
    assert BaseProperties(appName) == CommentLines + line;
    PrefixOfConcat(CommentLines, line);
  }

  /** The url line names the application's database through `${DB_NAME:<appName>}`. */
  lemma UrlLineNamesDatabase(appName: string)
    ensures UrlLine(appName)[|UrlPrefix|..|UrlPrefix| + 11 + |appName|] == "${DB_NAME:" + appName + "}"
  {
    assert UrlLine(appName) == UrlPrefix + (DbNamePlaceholder(appName) + "\n");
  }

  /** The opening of createApplicationProperties: comment header and application name. */
  method AppendHeader(appName: string) returns (props: string)
    ensures props == BaseProperties(appName)
  {
    props := "";
    props := props + HeaderUk;
    assert props == HeaderUk;
    props := props + HeaderEn;
    props := props + HeaderRu;
    assert props == CommentLines;
    props := props + "spring.application.name=" + appName + "\n";
  }

  /** The datasource block of createApplicationProperties, appended to `props`. */
  method AppendDatasource(props: string, appName: string) returns (out: string)
    ensures out == props + (DatasourceComments + DatasourceLines(appName))
  {
    out := props;
    out := out + DbCommentUk;
    out := out + DbCommentEn;
    out := out + DbCommentRu;
    assert out == props + DatasourceComments;
    ghost var withComments := out;
    out := out + UrlPrefix + "${DB_NAME:" + appName + "}\n";
    assert out == withComments + UrlLine(appName);
    out := out + UsernameLine;
    out := out + PasswordLine;
    Assoc(withComments, UrlLine(appName) + UsernameLine, PasswordLine);
    Assoc(withComments, UrlLine(appName), UsernameLine);
    Assoc(props, DatasourceComments, DatasourceLines(appName));
  }

  /** createApplicationProperties: appends the lines to a buffer one by one. */
  method CreateApplicationProperties(app: App) returns (props: string)
    ensures props == ApplicationProperties(app)
  {
    props := AppendHeader(app.name);
    if app.spec.database.Some? && app.spec.database.value.enabled {
      props := AppendDatasource(props, app.name);
    } else {
      assert props == props + "";
    }
  }

  function ConfigMapKey(app: App): Key {
    Key(ConfigMapKind, app.namespace, ResourceName(app.name, "config"))
  }

  function SecretKey(app: App): Key {
    Key(SecretKind, app.namespace, ResourceName(app.name, "secret"))
  }

  /** The desired ConfigMap: `<app>-config`, owner-labelled, one key "application.properties". */
  function DesiredConfigMap(app: App): (c: ConfigMap)
    ensures KeyOf(ConfigMapObject(c)) == ConfigMapKey(app)
    ensures c.metadata.labels == OwnerLabels(app.name)
    ensures c.data.Keys == {"application.properties"}
    ensures c.data["application.properties"] == ApplicationProperties(app)
  {
    ConfigMap(
      ObjectMeta(ResourceName(app.name, "config"), app.namespace, OwnerLabels(app.name)),
      map["application.properties" := ApplicationProperties(app)])
  }

  /** The desired Secret: `<app>-secret`, owner-labelled, type Opaque, the encoded credentials. */
  function DesiredSecret(app: App): (s: Secret)
    ensures KeyOf(SecretObject(s)) == SecretKey(app)
    ensures s.metadata.labels == OwnerLabels(app.name)
    ensures s.secretType == "Opaque"
    ensures s.data == SecretData()
  {
    Secret(
      ObjectMeta(ResourceName(app.name, "secret"), app.namespace, OwnerLabels(app.name)),
      SecretData(),
      "Opaque")
  }

  /**
   * The effect of createOrUpdateConfigResources: the ConfigMap first, then
   * the Secret; when the ConfigMap write throws, the Secret is not written.
   */
  function SyncConfig(objects: map<Key, Object>, rejecting: set<Key>, app: App): (r: Applied)
    ensures ConfigMapKey(app) in rejecting ==> r == Applied(objects, false)
    ensures r.ok <==> ConfigMapKey(app) !in rejecting && SecretKey(app) !in rejecting
    ensures r.ok ==>
      r.objects == objects[ConfigMapKey(app) := ConfigMapObject(DesiredConfigMap(app))][SecretKey(app) := SecretObject(DesiredSecret(app))]
    ensures ConfigMapKey(app) !in rejecting && SecretKey(app) in rejecting ==>
      r == Applied(objects[ConfigMapKey(app) := ConfigMapObject(DesiredConfigMap(app))], false)
  {
    var a := Put(objects, rejecting, ConfigMapObject(DesiredConfigMap(app)));
    if !a.ok then a else Put(a.objects, rejecting, SecretObject(DesiredSecret(app)))
  }

  /** The effect of deleteConfigResources: the ConfigMap, then the Secret, by name. */
  function TeardownConfig(objects: map<Key, Object>, rejecting: set<Key>, app: App): (r: Applied)
    ensures ConfigMapKey(app) in rejecting ==> r == Applied(objects, false)
    ensures r.ok <==> ConfigMapKey(app) !in rejecting && SecretKey(app) !in rejecting
    ensures r.ok ==> r.objects == objects - {ConfigMapKey(app), SecretKey(app)}
    ensures ConfigMapKey(app) !in rejecting && SecretKey(app) in rejecting ==>
      r == Applied(objects - {ConfigMapKey(app)}, false)
  {
    var a := Remove(objects, rejecting, ConfigMapKey(app));
    if !a.ok then a else Remove(a.objects, rejecting, SecretKey(app))
  }

  method CreateConfigMap(cluster: Cluster, app: App) returns (ok: bool)
    modifies cluster
    ensures Applied(cluster.objects, ok) == Put(old(cluster.objects), cluster.rejecting, ConfigMapObject(DesiredConfigMap(app)))
  {
    var properties := CreateApplicationProperties(app);
    var configData := map["application.properties" := properties];
    var configMap := ConfigMap(
      ObjectMeta(ResourceName(app.name, "config"), app.namespace, OwnerLabels(app.name)),
      configData);
    ok := cluster.CreateOrReplace(ConfigMapObject(configMap));
  }

  method CreateSecret(cluster: Cluster, app: App) returns (ok: bool)
    modifies cluster
    ensures Applied(cluster.objects, ok) == Put(old(cluster.objects), cluster.rejecting, SecretObject(DesiredSecret(app)))
  {
    var secretData := map[
      "db-username" := Base64.Encode(Base64.AsciiBytes(SecretUsername)),
      "db-password" := Base64.Encode(Base64.AsciiBytes(SecretPassword))];
    var secret := Secret(
      ObjectMeta(ResourceName(app.name, "secret"), app.namespace, OwnerLabels(app.name)),
      secretData,
      "Opaque");
    ok := cluster.CreateOrReplace(SecretObject(secret));
  }

  method CreateOrUpdateConfigResources(cluster: Cluster, app: App) returns (ok: bool)
    modifies cluster
    ensures Applied(cluster.objects, ok) == SyncConfig(old(cluster.objects), cluster.rejecting, app)
  {
    ok := CreateConfigMap(cluster, app);
    if !ok {
      return;
    }
    ok := CreateSecret(cluster, app);
  }

  method DeleteConfigResources(cluster: Cluster, app: App) returns (ok: bool)
    modifies cluster
    ensures Applied(cluster.objects, ok) == TeardownConfig(old(cluster.objects), cluster.rejecting, app)
  {
    ok := cluster.Delete(Key(ConfigMapKind, app.namespace, ResourceName(app.name, "config")));
    if !ok {
      return;
    }
    ok := cluster.Delete(Key(SecretKind, app.namespace, ResourceName(app.name, "secret")));
  }
}
