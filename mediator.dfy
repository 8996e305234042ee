/** `Mediator`: two registries from request classes to handlers. */
module Mediation {
  import opened Errors

  /** A request class as the registry sees it: its identity, and the
      outcome of `issubclass(cls, Query)` and `issubclass(cls, Command)`.
      Two classes are the same key only when they are the same class; a
      subclass is a different key. */
  datatype ClassInfo = ClassInfo(name: string, isQuery: bool, isCommand: bool)

  /** A request object; `cls` is its `__class__`. */
  datatype Request<P> = Request(cls: ClassInfo, payload: P)

  /** `H` is the handler type; a handler's `handle` is given to the
      dispatching methods as the function `invoke`. What it returns or
      raises, as a `Result`, is what the dispatch returns or raises. */
  class Mediator<H> {
    /** `query_handlers`: a plain dict. It holds what `register_handlers`
        was given for a query class, which is a list of handlers. */
    var queryHandlers: map<ClassInfo, seq<H>>
    /** `command_handlers`: a `defaultdict(list)`. */
    var commandHandlers: map<ClassInfo, seq<H>>

    constructor ()
      ensures queryHandlers == map[] && commandHandlers == map[]
    {
      queryHandlers := map[];
      commandHandlers := map[];
    }

    /** The query test comes first, so a class that is both is a query;
        the entry is REPLACED by exactly the given list; a class that is
        neither changes nothing. */
    method RegisterHandlers(cls: ClassInfo, handlers: seq<H>)
      modifies this
      ensures cls.isQuery ==>
                queryHandlers == old(queryHandlers)[cls := handlers] && commandHandlers == old(commandHandlers)
      ensures !cls.isQuery && cls.isCommand ==>
                commandHandlers == old(commandHandlers)[cls := handlers] && queryHandlers == old(queryHandlers)
      ensures !cls.isQuery && !cls.isCommand ==>
                queryHandlers == old(queryHandlers) && commandHandlers == old(commandHandlers)
    {
      if cls.isQuery {
        queryHandlers := queryHandlers[cls := handlers];
      } else if cls.isCommand {
        commandHandlers := commandHandlers[cls := handlers];
      }
    }

    /** `handle_command`: looks up the exact class; only the FIRST handler
        runs and its result is returned as is, not in a list. A class with
        no entry gets an empty list inserted by the `defaultdict` and then
        fails with IndexError, as does an empty registered list. */
    method HandleCommand<P, R>(command: Request<P>, invoke: (H, Request<P>) -> Result<R>) returns (r: Result<R>)
      modifies this
      ensures queryHandlers == old(queryHandlers)
      ensures command.cls in old(commandHandlers) ==> commandHandlers == old(commandHandlers)
      ensures command.cls !in old(commandHandlers) ==> commandHandlers == old(commandHandlers)[command.cls := []]
      ensures command.cls in old(commandHandlers) && old(commandHandlers)[command.cls] != []
              ==> r == invoke(old(commandHandlers)[command.cls][0], command)
      ensures command.cls !in old(commandHandlers) || old(commandHandlers)[command.cls] == []
              ==> r == Failure(IndexError)
    {
      if command.cls !in commandHandlers {
        commandHandlers := commandHandlers[command.cls := []];
      }
      var handlers := commandHandlers[command.cls];
      if handlers == [] {
        return Failure(IndexError);
      }
      r := invoke(handlers[0], command);
    }

    /** `handle_query`: an unknown class raises KeyError. A registered
        class holds the list that `register_handlers` stored, and a list
        has no `handle`, so the call raises AttributeError. Nothing changes. */
    method HandleQuery<P, R>(query: Request<P>, invoke: (H, Request<P>) -> Result<R>) returns (r: Result<R>)
      ensures query.cls !in queryHandlers ==> r == Failure(KeyError)
      ensures query.cls in queryHandlers ==> r == Failure(AttributeError)
    {
      if query.cls !in queryHandlers {
        return Failure(KeyError);
      }
      r := Failure(AttributeError);
    }

    /** What `handle_query` evidently means: run the handler registered
        for the exact class and return its result. */
    method HandleQueryIntended<P, R>(query: Request<P>, invoke: (H, Request<P>) -> Result<R>) returns (r: Result<R>)
      ensures query.cls !in queryHandlers ==> r == Failure(KeyError)
      ensures query.cls in queryHandlers && queryHandlers[query.cls] != []
              ==> r == invoke(queryHandlers[query.cls][0], query)
      ensures query.cls in queryHandlers && queryHandlers[query.cls] == [] ==> r == Failure(IndexError)
    {
      if query.cls !in queryHandlers {
        return Failure(KeyError);
      }
      var handlers := queryHandlers[query.cls];
      if handlers == [] {
        return Failure(IndexError);
      }
      r := invoke(handlers[0], query);
    }
  }
}
