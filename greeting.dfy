/** The two interchangeable greeting services: the production
    `GreetingService` and the development `MockGreetingService`. Each has one
    operation, `generate_greeting(name)`, an f-string over the name. */
module Greeting {

  const HelloPrefix: string := "Hello, "
  const MockMarker: string := "[mock] "

  /** The two implementations of the greeting protocol. */
  datatype GreetingProvider = GreetingService | MockGreetingService

  /** `GreetingService.generate_greeting`: the name follows the prefix
      verbatim, with no trimming or normalisation. */
  function ProductionGreeting(name: string): (r: string)
    ensures |r| == |name| + 7
    ensures r[..7] == HelloPrefix && r[7..] == name
  {
    HelloPrefix + name
  }

  /** `MockGreetingService.generate_greeting`. */
  function MockGreeting(name: string): (r: string)
    ensures |r| == |name| + 14
    ensures r[..7] == MockMarker && r[7..14] == HelloPrefix && r[14..] == name
  {
    "[mock] Hello, " + name
  }

  /** Calling `generate_greeting` on whichever service was resolved. */
  function GenerateGreeting(provider: GreetingProvider, name: string): (r: string)
    ensures provider.GreetingService? ==> r == ProductionGreeting(name)
    ensures provider.MockGreetingService? ==> r == MockGreeting(name)
  {
    match provider
    case GreetingService => ProductionGreeting(name)
    case MockGreetingService => MockGreeting(name)
  }

  /** The mock greeting is the production greeting behind the "[mock] " marker. */
  lemma MockIsMarkedProduction(name: string)
    ensures MockGreeting(name) == MockMarker + ProductionGreeting(name)
  {
  }

  /** Distinct names give distinct greetings, for either service. */
  lemma GreetingInjective(provider: GreetingProvider, a: string, b: string)
    requires GenerateGreeting(provider, a) == GenerateGreeting(provider, b)
    ensures a == b
  {
  }

  /** The two services never agree, whatever the two names: the mock result
      starts with '[' where the production result starts with 'H'. For one
      and the same name the lengths also differ by exactly 7. */
  lemma ServicesNeverCoincide(a: string, b: string)
    ensures ProductionGreeting(a) != MockGreeting(b)
    ensures |MockGreeting(a)| == |ProductionGreeting(a)| + 7
  {
  }

  /** The root endpoint greets the fixed name "World". */
  lemma RootGreeting()
    ensures GenerateGreeting(GreetingService, "World") == "Hello, World"
    ensures GenerateGreeting(MockGreetingService, "World") == "[mock] Hello, World"
  {
  }

  /** The unit tests' name, and the empty name. */
  lemma UnitTestGreetings()
    ensures ProductionGreeting("Tester") == "Hello, Tester"
    ensures MockGreeting("Tester") == "[mock] Hello, Tester"
    ensures ProductionGreeting("") == "Hello, " && MockGreeting("") == "[mock] Hello, "
  {
  }

  /** The end-to-end test's name, greeted by the mock service. */
  lemma EndToEndGreeting()
    ensures GenerateGreeting(MockGreetingService, "E2E") == "[mock] Hello, E2E"
  {
  }
}
