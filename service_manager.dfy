/** The service manager: the registered service clients by name, the
    lookups by name and by expected type, and the manager built with the
    default clients. */
module ServiceManagement {
  import opened Wrappers
  import opened Services

  /** A registered client: its configuration and the names of the classes
      it is an instance of (its own and every base class). */
  datatype Service = Service(classes: set<string>, base: ServiceBase)

  /** `isinstance(service, service_type)`. */
  predicate IsInstance(s: Service, serviceType: string)
  {
    serviceType in s.classes
  }

  /** `_services.get(name)`. */
  function Lookup(services: map<string, Service>, name: string): (r: Option<Service>)
    ensures r.Some? <==> name in services
    ensures r.Some? ==> r.value == services[name]
  {
    if name in services then Some(services[name]) else None
  }

  /** After a registration the name gives the new client, whatever it gave
      before, and every other name gives what it gave before. */
  lemma RegisterThenLookup(services: map<string, Service>, name: string, s: Service, other: string)
    ensures Lookup(services[name := s], name) == Some(s)
    ensures other != name ==> Lookup(services[name := s], other) == Lookup(services, other)
  {
  }

  /** `get_typed_service` over the registered clients: ValueError for an
      unregistered name or a client of another type. */
  function Typed(services: map<string, Service>, name: string, serviceType: string): (r: Result<Service>)
    ensures r.Ok? <==> name in services && IsInstance(services[name], serviceType)
    ensures r.Ok? ==> r.value == services[name]
    ensures r.Err? ==> r.error == "ValueError"
  {
    match Lookup(services, name)
    case None => Err("ValueError")
    case Some(s) => if IsInstance(s, serviceType) then Ok(s) else Err("ValueError")
  }

  /** A client registered under a name is returned for any class it is an
      instance of, and refused for any other. */
  lemma RegisteredTyped(services: map<string, Service>, name: string, s: Service, serviceType: string)
    ensures IsInstance(s, serviceType) ==> Typed(services[name := s], name, serviceType) == Ok(s)
    ensures !IsInstance(s, serviceType) ==> Typed(services[name := s], name, serviceType) == Err("ValueError")
  {
  }

  class ServiceManager {
    var services: map<string, Service>

    /** A manager with no client registered. */
    constructor()
      ensures services == map[]
    {
      services := map[];
    }

    /** `register`: the name now gives this client; a client registered
      under it before is replaced. */
    method Register(name: string, s: Service)
      modifies this
      ensures services == old(services)[name := s]
    {
      services := services[name := s];
    }

    /** `get_service`: the client registered under the name, or None. */
    method GetService(name: string) returns (r: Option<Service>)
      ensures r == Lookup(services, name)
    {
      r := if name in services then Some(services[name]) else None;
    }

    /** `get_typed_service`: the client registered under the name when it
      is an instance of the expected type; a ValueError otherwise. */
    method GetTypedService(name: string, serviceType: string) returns (r: Result<Service>)
      ensures r == Typed(services, name, serviceType)
    {
      var s := GetService(name);
      if s.None? {
        return Err("ValueError");
      }
      if !IsInstance(s.value, serviceType) {
        return Err("ValueError");
      }
      r := Ok(s.value);
    }
  }

  /** The clients `create_default` registers, in order, each only when its
      constructor does not raise. */
  function Defaults(openai: Result<Service>, documentIntelligence: Result<Service>,
                    speech: Result<Service>): map<string, Service>
  {
    var m0: map<string, Service> := map[];
    var m1 := if openai.Ok? then m0["openai" := openai.value] else m0;
    var m2 := if documentIntelligence.Ok? then m1["document_intelligence" := documentIntelligence.value] else m1;
    if speech.Ok? then m2["speech" := speech.value] else m2
  }

  /** A client whose constructor raises is simply not registered; the
      others are registered under their names. */
  lemma DefaultsRegistered(openai: Result<Service>, documentIntelligence: Result<Service>,
                           speech: Result<Service>)
    ensures var m := Defaults(openai, documentIntelligence, speech);
      ("openai" in m <==> openai.Ok?) && (openai.Ok? ==> m["openai"] == openai.value) &&
      ("speech" in m <==> speech.Ok?) && (speech.Ok? ==> m["speech"] == speech.value) &&
      ("document_intelligence" in m <==> documentIntelligence.Ok?) &&
      (documentIntelligence.Ok? ==> m["document_intelligence"] == documentIntelligence.value) &&
      |m| <= 3
  {
  }

  /** `create_default`: a new manager, then each default client registered
      when its constructor (`openai`, `documentIntelligence`, `speech`)
      succeeds. */
  method CreateDefault(openai: Result<Service>, documentIntelligence: Result<Service>, speech: Result<Service>)
    returns (manager: ServiceManager)
    ensures fresh(manager)
    ensures manager.services == Defaults(openai, documentIntelligence, speech)
  {
    manager := new ServiceManager();
    if openai.Ok? {
      manager.Register("openai", openai.value);
    }
    if documentIntelligence.Ok? {
      manager.Register("document_intelligence", documentIntelligence.value);
    }
    if speech.Ok? {
      manager.Register("speech", speech.value);
    }
  }
}
