# Switchboard backend registry and bridge collection in Dafny

Switchboard is a TCP proxy that routes every new client connection to one
"active" backend node and fails over to another healthy node when the active
one goes down, severing the connections pinned to it so that clients
reconnect. This project models two parts of it:

- **The backend registry** (`Domain`, in `backends.dfy`): the `Backends`
  class holds the map `all` from backend to its health flag and the `active`
  backend (or null). Its object invariant `Valid()` is the election
  invariant: `active` is null or a registered backend flagged healthy, and
  `active` is null exactly when no backend is healthy. The constructor and
  both health transitions keep it. Backends are objects compared by
  identity. Go's map iteration order is unspecified, so every loop over the
  map picks its next key with `:|` and every reader is proved for any order.
  The severing of the active backend's connections is recorded as an event
  in the ghost log `Severed`.
- **The bridge collection** (`Switchboard`, in `bridges.dfy`): the `Bridges`
  class holds the set of live bridges. `Remove` of a non-member fails with
  "Bridge not found", and `RemoveAndCloseAll` closes every member exactly
  once and empties the set. A bridge counts its `Close` calls in a ghost
  counter, as the test double does. The test scenarios of `bridges_test.go`
  are methods whose postconditions are the tests' expectations.

On three points the model follows the code exactly:

- `SetHealthy` makes the backend it is given active when none is active. It
  does not search for some other healthy backend.
- `All` and `Healthy` hold the read lock until a goroutine has copied every
  entry into the channel's buffer, which is sized to hold them all. So what
  they yield is the state at the call, and the model returns that snapshot as
  a sequence.
- `SetHealthy` and `SetUnhealthy` write the map entry unconditionally. A
  backend that was never registered is therefore added, and the model does
  the same.

## Model

| member | source | states |
|---|---|---|
| `Domain.Backends.constructor` | domain/backends.go:29-50 | one fresh backend per configuration entry, all flagged healthy; the election invariant holds; there is an active backend exactly when the configuration is non-empty |
| `Domain.Backends.Provision` | domain/backends.go:35-45 | the loop creates one fresh, distinct backend for each configuration entry, in order, with that entry's identity, and flags each healthy |
| `Domain.Backend.constructor` | domain/backends.go:36-42 | a backend carries the name, host, port and health-check port of its configuration entry |
| `Domain.Backends.NextHealthy` | domain/backends.go:145-152 | returns some backend flagged healthy, and null exactly when none is healthy, whatever the iteration order |
| `Domain.Backends.All` | domain/backends.go:52-67 | yields every registered backend exactly once: no repeats, nothing else, as many as are registered |
| `Domain.Backends.Healthy` | domain/backends.go:69-87 | yields exactly the backends flagged healthy, each once |
| `Domain.Backends.Any` | domain/backends.go:89-98 | returns a registered backend, and null exactly when the registry is empty |
| `Domain.Backends.Active` | domain/backends.go:100-105 | returns the stored active backend without changing state; under the invariant it is healthy, and null only when no backend is healthy |
| `Domain.Backends.SetHealthy` | domain/backends.go:107-116 | the backend's flag becomes true and no other flag changes; it becomes active if none was; otherwise the active backend is unchanged; nothing is severed; the invariant is kept |
| `Domain.Backends.SetUnhealthy` | domain/backends.go:118-128 | the backend's flag becomes false and no other flag changes; if it was active, its connections are severed exactly once and the new active is another healthy backend or null when none is healthy; otherwise the active backend is unchanged and nothing is severed; the invariant is kept |
| `Domain.Backends.AsJSON` | domain/backends.go:130-143 | one entry per registered backend, each with that backend's identity and health flag; an entry is active only when its backend is the active one, so at most one entry is active, and exactly one when a backend is active |
| `Switchboard.Bridges.constructor` | bridges_test.go:18 | a new collection is empty |
| `Switchboard.Bridges.Add` | bridges_test.go:24-26 | the bridge is a member afterwards and the other members are unchanged |
| `Switchboard.Bridges.Remove` | bridges_test.go:79-97 | a member is removed with no error and nothing else changes; a non-member gives the error "Bridge not found" and the collection is unchanged |
| `Switchboard.Bridges.Contains` | bridges_test.go:84-86 | true exactly when the bridge is a member |
| `Switchboard.Bridges.Size` | bridges_test.go:88 | the number of members |
| `Switchboard.Bridges.RemoveAndCloseAll` | bridges_test.go:100-114 | every former member is closed exactly once and the collection is empty afterwards |
| `Switchboard.Bridge.Close` | bridges_test.go:104-106 | each call adds one to the bridge's close count |
| `Switchboard.ThreeBridges` | bridges_test.go:17-27 | the test fixture: a new collection holding three distinct new bridges, none closed |
| `Switchboard.RemoveRemovesOnlyTheGivenBridge` | bridges_test.go:80-89 | removing the second of three bridges gives no error; the first and third are still members, the second is not, and the size is 2 |
| `Switchboard.RemoveUnknownBridgeFails` | bridges_test.go:91-97 | removing a bridge that was never added gives exactly the error "Bridge not found"; the three bridges are still members and the size stays 3 |
| `Switchboard.RemoveAndCloseAllClosesAndEmpties` | bridges_test.go:100-114 | after RemoveAndCloseAll each of the three bridges was closed once and the size is 0 |

## Left out

- Locking: the registry's read-write mutex and the bridge collection's lock are not modelled. Each operation is one atomic step, and the concurrent-operations test of `bridges_test.go` (race freedom) is out of scope.
- Channels: `All` and `Healthy` hand their result over a channel filled by a goroutine. The model returns the same elements as a sequence. It does not capture the goroutine, or that the read lock is held until the goroutine has copied every entry into the channel's buffer (domain/backends.go:56-63, 73-84); a writer calling meanwhile only waits for that copy.
- Logging: the logger calls in `SetHealthy` and `SetUnhealthy` are not modelled.
- `BackendProvider`: this global, replaceable constructor hook is modelled as allocating a new `Backend` object.
- Backend behaviour: the `Backend` type (its `SeverConnections`, its own bridge set and its `AsJSON`) is not part of this model. A backend is an object holding its configuration, the identity fields of its status entry are taken from that configuration, and a call to `SeverConnections` appears only as an entry in the ghost log `Severed`.
- Bridges implementation: the `Bridges` implementation is not part of this model. The collection is modelled from its tests. `Add` of a current member is modelled as a no-op and `Remove` does not close; the implementation is not shown, so both are modelling choices.
- Bridge relay: the byte relay of a connection bridge (socket copying and close-on-error) is I/O and is not modelled. A bridge is an identity with a close counter.
- Integer widths: ports are unbounded naturals, since the model does no arithmetic on them.
- Outside the core: the integration tests, their suite setup and the HTTP handler wiring are not modelled.
- `Domain.Backends.SetHealthy`: the argument is a non-null `Backend`, so a nil argument is not modelled; with nil and no active backend the source registers nil as healthy and leaves no backend active, breaking the election invariant (domain/backends.go:111-115).
- `Domain.Backends.SetUnhealthy`: the argument is a non-null `Backend`, so a nil argument is not modelled; with nil and no active backend the source calls `SeverConnections` on nil and panics (domain/backends.go:122-125).
- `Domain.Backends.constructor`: states that the number of backends equals the number of configuration entries and that every entry is covered, but not the one-to-one pairing. That pairing is stated by `Domain.Backends.Provision`, which the constructor calls.
