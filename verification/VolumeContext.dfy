/** The volume context: what `CreateVolume` accepts and what `NodePublishVolume` makes of it. */
module VolumeContext {
  import opened Kube

  const CLASS_KEY := "listeners.kubedoop.dev/class"
  const NAME_KEY := "listeners.kubedoop.dev/name"
  const POD_NAME_KEY := "csi.storage.k8s.io/pod.name"
  const POD_NAMESPACE_KEY := "csi.storage.k8s.io/pod.namespace"

  /** Claims by their annotations, listeners, and the cluster-wide classes. */
  datatype Store = Store(claims: map<Key, Labels>, listeners: map<Key, ListenerDecl>, classes: map<string, ListenerClass>)

  // ---------------------------------------------------------------- the controller side

  function GetVolumeContext(s: Store, claim: Key): Result<Labels> {
    if claim !in s.claims then Err("get pvc error")
    else if CLASS_KEY !in s.claims[claim] && NAME_KEY !in s.claims[claim] then Err("neither annotation")
    else Ok(s.claims[claim])
  }

  function ClassByName(s: Store, name: string): Result<ListenerClass> {
    if name in s.classes then Ok(s.classes[name]) else Err("listener class not found")
  }

  /** A listener name in the context wins over a class name. */
  function GetListenerClass(s: Store, context: Labels, namespace: string): Result<ListenerClass> {
    if NAME_KEY in context then
      var k := Key(namespace, context[NAME_KEY]);
      if k !in s.listeners then Err("get listener error") else ClassByName(s, s.listeners[k].spec.className)
    else if CLASS_KEY in context then ClassByName(s, context[CLASS_KEY])
    else Err("neither listener name nor listener class name found")
  }

  /** A topology by the name of its node; `preferred` is empty when the request states no preference. */
  function AccessibleTopology(cls: ListenerClass, preferred: seq<string>): seq<string> {
    if cls.serviceType == Some(NodePort) && preferred != [] then [preferred[0]] else []
  }

  datatype Created = Created(context: Labels, topology: seq<string>, className: string)

  function CreateVolume(s: Store, claim: Key, preferred: seq<string>): Result<Created> {
    var context :- GetVolumeContext(s, claim);
    var cls :- GetListenerClass(s, context, claim.namespace);
    Ok(Created(context, AccessibleTopology(cls, preferred), cls.name))
  }

  // ---------------------------------------------------------------- the node side

  /** `newVolumeContextFromMap`: None is a nil pointer. */
  datatype Parsed = Parsed(pod: Option<string>, podNamespace: Option<string>, className: Option<string>, listenerName: Option<string>)

  function Read(context: Labels, key: string): Option<string> {
    if key in context then Some(context[key]) else None
  }

  function Parse(context: Labels): Parsed {
    Parsed(Read(context, POD_NAME_KEY), Read(context, POD_NAMESPACE_KEY), Read(context, CLASS_KEY), Read(context, NAME_KEY))
  }

  /** The kubelet adds the pod to the context. */
  function WithPod(context: Labels, pod: Key): Labels {
    context[POD_NAME_KEY := pod.name][POD_NAMESPACE_KEY := pod.namespace]
  }

  datatype Lookup =
    | NilDereference
    | NotFound
    | Named(className: string)
    | Fresh(className: string)
    | Existing(className: string)

  /** Which listener a publish works with, by the class that listener has. */
  function GetListener(s: Store, c: Parsed, claim: Key): Lookup {
    if c.pod.None? || c.podNamespace.None? then NilDereference
    else if c.listenerName.Some? then
      var k := Key(c.podNamespace.value, c.listenerName.value);
      if k in s.listeners then Named(s.listeners[k].spec.className) else NotFound
    else if c.className.None? then NilDereference
    else if c.className.value !in s.classes then NotFound
    else
      var k := Key(c.podNamespace.value, claim.name);
      if k in s.listeners then Existing(s.listeners[k].spec.className) else Fresh(s.classes[c.className.value].name)
  }

  /**
   * A volume is created exactly when the claim is annotated and the annotation leads to a class, by way of the named
   * listener if there is a name. It carries the claim's annotations, and is pinned to the preferred node exactly for
   * a NodePort class.
   */
  lemma CreateVolumeExactly(s: Store, claim: Key, preferred: seq<string>)
    requires forall n :: n in s.classes ==> s.classes[n].name == n
    ensures CreateVolume(s, claim, preferred).Ok? <==>
            && claim in s.claims
            && var context := s.claims[claim];
            if NAME_KEY in context then
              var named := Key(claim.namespace, context[NAME_KEY]);
              named in s.listeners && s.listeners[named].spec.className in s.classes
            else CLASS_KEY in context && context[CLASS_KEY] in s.classes
    ensures CreateVolume(s, claim, preferred).Ok? ==>
              var created := CreateVolume(s, claim, preferred).value;
              && created.context == s.claims[claim] && created.className in s.classes
              && created.className == (if NAME_KEY in created.context
                                       then s.listeners[Key(claim.namespace, created.context[NAME_KEY])].spec.className
                                       else created.context[CLASS_KEY])
              && created.topology == (if s.classes[created.className].serviceType == Some(NodePort) && preferred != []
                                      then [preferred[0]] else [])
  {
  }

  /** Whatever happens to the store in between, a context that was accepted never leads to a nil dereference. */
  lemma AcceptedContextIsSafe(s: Store, later: Store, claim: Key, preferred: seq<string>, pod: string)
    requires CreateVolume(s, claim, preferred).Ok?
    ensures GetListener(later, Parse(WithPod(CreateVolume(s, claim, preferred).value.context, Key(claim.namespace, pod))), claim)
            != NilDereference
  {
  }

  /**
   * Whether the publish works with the class that decided the topology, whatever happened to the store in between. A
   * listener that is created does. One found under the claim's name does exactly when its class is the one the claim
   * asks for, and a named one exactly when its class has not been edited since.
   */
  lemma TopologyClassAgrees(s: Store, later: Store, claim: Key, preferred: seq<string>, pod: string)
    requires forall n :: n in s.classes ==> s.classes[n].name == n
    requires forall n :: n in later.classes ==> later.classes[n].name == n
    requires CreateVolume(s, claim, preferred).Ok?
    ensures var created := CreateVolume(s, claim, preferred).value;
            var found := GetListener(later, Parse(WithPod(created.context, Key(claim.namespace, pod))), claim);
            if NAME_KEY in created.context then
              var named := Key(claim.namespace, created.context[NAME_KEY]);
              if named !in later.listeners then found == NotFound
              else
                && found.Named? && named in s.listeners
                && (found.className == created.className <==>
                      later.listeners[named].spec.className == s.listeners[named].spec.className)
            else if created.context[CLASS_KEY] !in later.classes then found == NotFound
            else if claim !in later.listeners then found == Fresh(created.className)
            else
              && found.Existing?
              && (found.className == created.className <==>
                    later.listeners[claim].spec.className == created.context[CLASS_KEY])
    ensures var created := CreateVolume(s, claim, preferred).value;
            && created.className in s.classes
            && (created.topology != [] ==>
                  s.classes[created.className].serviceType == Some(NodePort) && created.topology == [preferred[0]])
  {
  }

  /**
   * A listener of another class already has the claim's name: the volume is pinned to a node for the NodePort class
   * that the claim asks for, and published through a ClusterIP listener.
   */
  lemma TopologyOfAnotherClass(pod: string) returns (s: Store, claim: Key)
    ensures forall n :: n in s.classes ==> s.classes[n].name == n
    ensures CreateVolume(s, claim, ["node"]).Ok? && CreateVolume(s, claim, ["node"]).value.topology == ["node"]
    ensures var created := CreateVolume(s, claim, ["node"]).value;
            var found := GetListener(s, Parse(WithPod(created.context, Key(claim.namespace, pod))), claim);
            && found.Existing? && found.className != created.className
            && found.className in s.classes && s.classes[found.className].serviceType == Some(ClusterIP)
  {
    claim := Key("default", "data");
    var other := ListenerDecl(claim, "u", ListenerSpec("c", [], map[], None));
    s := Store(map[claim := map[CLASS_KEY := "n"]], map[claim := other],
               map["n" := ListenerClass("n", Some(NodePort), Local, IP),
                   "c" := ListenerClass("c", Some(ClusterIP), Unset, IP)]);
    assert NAME_KEY != CLASS_KEY;
  }

  /** The class of a named listener is edited between the two calls: the volume stays pinned to a node it no longer needs. */
  lemma NamedListenerEdited(pod: string) returns (s: Store, later: Store, claim: Key)
    ensures CreateVolume(s, claim, ["node"]).Ok? && CreateVolume(s, claim, ["node"]).value.topology == ["node"]
    ensures var created := CreateVolume(s, claim, ["node"]).value;
            var found := GetListener(later, Parse(WithPod(created.context, Key(claim.namespace, pod))), claim);
            && found.Named? && found.className != created.className
            && found.className in later.classes && later.classes[found.className].serviceType == Some(ClusterIP)
  {
    claim := Key("default", "data");
    var named := ListenerDecl(Key("default", "web"), "u", ListenerSpec("n", [], map[], None));
    s := Store(map[claim := map[NAME_KEY := "web"]], map[named.key := named],
               map["n" := ListenerClass("n", Some(NodePort), Local, IP),
                   "c" := ListenerClass("c", Some(ClusterIP), Unset, IP)]);
    later := s.(listeners := map[named.key := named.(spec := named.spec.(className := "c"))]);
  }
}
