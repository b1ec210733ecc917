# Creational design patterns, modelled in Dafny

This project models four small Python scripts that demonstrate the classic
object-creation patterns, and proves what each of them promises:

- **Prototype** (`prototype.py`, module `Prototypes`, file `prototype.dfy`): a
  registry `Prototype` whose dictionary `_objects` maps names to template
  objects. `register_object` inserts or replaces, `unregister_object` deletes,
  and `clone` deep-copies a template and then applies keyword overrides with
  `__dict__.update`. Templates have the shape of the script's `DataMatrix`:
  value-typed attributes (`name`, `metadata`, …) plus a two-dimensional integer
  array `data`. The registry and the templates are Dafny classes; the payload is
  an `array2<int>`, so the independence of clones is stated as freshness of the
  copied arrays.
- **Abstract Factory** (`abstract_factory.py`, module `AbstractFactory`):
  the Windows and MacOS factories, their buttons and checkboxes with their fixed
  render strings, `Application.create_ui`, and `get_factory`, which lower-cases
  the platform name and looks it up in a two-entry table or raises ValueError.
- **Singleton** (`singleton.py`, module `Singletons`): class `A` with a lazily
  filled class-level slot `_instance` behind `get_instance` and a constructor that
  always raises; class `B`, whose metaclass `Singleton` fills the slot `_instaance`
  on the first call and returns the stored object afterwards. Each Python class
  object is modelled as a Dafny object (`AClass`, `BClass`) whose field is that
  slot, of type `Option`.
- **Factory Method** (`factory.py`, module `FactoryMethod`): the JSON and XML
  handlers, the two file processors whose `create_handler` picks one, and
  `run_processing`, which wraps the handler's report in a fixed sentence.

Python exceptions are returned as values (`Result`, `Outcome` in module
`Results`, file `results.dfy`).

Where a general account of the Prototype pattern would expect otherwise, the model
follows the code:

- Cloning an unregistered name does not raise a "key not found" error:
  `dict.get` yields `None`, `deepcopy(None)` is `None`, and reading `__dict__` on it
  raises AttributeError. `Clone` returns that AttributeError.
- Unregistering an absent name is not a no-op: `del` raises KeyError, and the
  table is unchanged. `UnregisterObject` returns that KeyError.
- There is no override ordering for a repeated field (Python keyword arguments
  cannot repeat), no cycle handling and no "uncloneable value" error in the code.
  The model has none of them.

## Model

| member | source | states |
|---|---|---|
| `Prototypes.MetadataOrEmpty` | prototype.py:89 | a false metadata value (the default None, an empty dict, …) becomes an empty dict; a true one is kept as given |
| `Prototypes.Update` | prototype.py:73 | after `__dict__.update`, every override key maps to its supplied value, added if the template lacked it; every other attribute keeps the template's value; no other keys appear |
| `Prototypes.DataMatrix.constructor` | prototype.py:86-89 | the object stores the given array itself, the name, and the defaulted metadata |
| `Prototypes.DataMatrix.Reconstruct` | prototype.py:72 | a deep copy rebuilds an object from its parts without running `__init__` |
| `Prototypes.CopyArray` | prototype.py:72 | the deep copy of the payload is a freshly allocated array of the same shape and the same contents |
| `Prototypes.DeepCopy` | prototype.py:72 | a deep copy is a fresh object with a fresh array, equal attributes and equal array contents |
| `Prototypes.Prototype.constructor` | prototype.py:62-63 | a new registry holds no entries |
| `Prototypes.Prototype.RegisterObject` | prototype.py:65-66 | `name` maps to `obj`, replacing any earlier entry; every other entry is unchanged |
| `Prototypes.Prototype.UnregisterObject` | prototype.py:68-69 | a present name is removed and nothing else changes; an absent name gives KeyError and leaves the table as it was |
| `Prototypes.Prototype.Clone` | prototype.py:71-74 | the table is unchanged; an unregistered name gives AttributeError (not KeyError); otherwise the result is a fresh object with a fresh array holding the template's contents and shape, and attributes equal to the template's updated with the overrides |
| `Prototypes.ClientPrototype` | prototype.py:77-80 | the result is a fresh copy of `obj`, with a fresh array of the same shape and contents and the overrides applied |
| `Prototypes.CloneIndependence` | prototype.py:113-138 | after writing one cell of a clone, that clone differs from the template in that cell only, a second clone still equals the template, and the three arrays are distinct |
| `AbstractFactory.RenderButton` | abstract_factory.py:142-156 | a button renders as "Rendering ", the style name of its class's platform (Windows or MacOS), and "-style button" |
| `AbstractFactory.RenderCheckbox` | abstract_factory.py:146-156 | a checkbox renders as "Rendering ", the style name of its class's platform (Windows or MacOS), and "-style checkbox" |
| `AbstractFactory.CreateButton` | abstract_factory.py:168-181 | each factory's button belongs to the factory's family and renders as "Rendering <Windows or MacOS>-style button" |
| `AbstractFactory.CreateCheckbox` | abstract_factory.py:168-181 | each factory's checkbox belongs to the factory's family and renders as "Rendering <Windows or MacOS>-style checkbox" |
| `AbstractFactory.RenderDeterminesProduct` | abstract_factory.py:141-156 | two buttons (checkboxes) render alike exactly when they are the same product, and no button renders like a checkbox |
| `AbstractFactory.CreateUi` | abstract_factory.py:184-195 | the returned button and checkbox both belong to the family of the one factory the application holds |
| `AbstractFactory.LowerChar` | abstract_factory.py:205 | ASCII capitals map to the letter 32 code points higher, all other characters are unchanged, and the result is never a capital |
| `AbstractFactory.Lower` | abstract_factory.py:205 | lower-casing keeps the length and lower-cases every character in place |
| `AbstractFactory.GetFactory` | abstract_factory.py:199-208 | the Windows factory is returned exactly for a case variant of "windows", the MacOS factory exactly for a case variant of "macos", and every other name fails with ValueError "Unsupported platform: " followed by the argument as given |
| `AbstractFactory.GetFactoryIgnoresCase` | abstract_factory.py:199-207 | two names that differ only in letter case select the same factory or both fail |
| `AbstractFactory.GetFactoryExamples` | abstract_factory.py:201-207 | "Windows" and "WINDOWS" select Windows, "MacOS" selects MacOS, and "linux" fails with "Unsupported platform: linux" |
| `Singletons.AClass.constructor` | singleton.py:45-46 | the slot `_instance` starts empty |
| `Singletons.AClass.Construct` | singleton.py:48-49 | direct construction `A()` always fails with RuntimeError and its message, whatever the slot holds |
| `Singletons.AClass.GetInstance` | singleton.py:51-56 | afterwards the slot holds the returned object; a filled slot's object is returned unchanged; an empty slot is filled with a newly made object and no error is possible |
| `Singletons.TwoGetInstances` | singleton.py:59-60 | two calls of `get_instance` return the same object, which the slot then holds |
| `Singletons.BClass.constructor` | singleton.py:69-70 | the slot `_instaance` starts empty |
| `Singletons.BClass.Call` | singleton.py:72-75 | with a filled slot the stored instance is returned and the arguments are ignored; with an empty slot and no arguments a new instance is made, stored and returned; with an empty slot and arguments the construction raises TypeError and the slot stays empty |
| `Singletons.TwoCalls` | singleton.py:79-83 | two calls `B()` yield the same object, which the slot then holds, and which is the earlier stored one if there was one |
| `FactoryMethod.Process` | factory.py:57-65 | a handler's report is "Processing '", the file name, and the handler's closing words naming JSON or XML |
| `FactoryMethod.CreateHandler` | factory.py:100-114 | the JSON processor creates the JSON handler and the XML processor the XML handler |
| `FactoryMethod.RunProcessing` | factory.py:85-96 | the handler made by the processor's factory method and the file name given at construction can be read back, unchanged, from the returned report |
| `FactoryMethod.RunProcessingShape` | factory.py:85-96 | the result of `run_processing` is the fixed opening, the handler's report for the stored file name, and ")" |
| `FactoryMethod.ParseFramed` | factory.py:60-96 | the report parser accepts the opening, a file name, a handler's closing words and ")" and returns exactly that handler and that file name |
| `FactoryMethod.ParseReportRoundTrip` | factory.py:57-96 | a handler's report on any file name, framed as `run_processing` frames it, parses back to that handler and that file name |
| `FactoryMethod.RunProcessingInjective` | factory.py:85-96 | two processors give the same report exactly when they are the same kind with the same file name |

## Left out

- Printing: the `__main__` demonstration blocks, the module-level prints in
  singleton.py, the printing in `client_code` and in `create_ui`. Only the returned
  values are modelled; `client_code` itself is only printing and is not modelled.
- Runtime platform detection through `platform.system()` in the abstract-factory
  demonstration: it queries the environment.
- Python's generic `copy.deepcopy` (memo table, cycles, arbitrary object graphs):
  the copy is modelled for the fixed `DataMatrix` shape only. Attribute values are
  immutable Dafny values, so copying them is sharing them; the array is copied
  element by element into a new array.
- Templates are `DataMatrix`-shaped objects: registering `None` or an object
  without `__dict__` is not modelled.
- `Prototypes.Prototype.Clone`: an override can only carry a value-typed attribute;
  replacing the array payload `data` by an override is not modelled. An override
  keyed "data" is stored in the attribute map beside the copied array instead of
  replacing it, a state Python cannot reach.
- NumPy arrays are modelled by `array2<int>`; the `id()` comparisons are modelled by
  Dafny object identity and freshness.
- `AbstractFactory.LowerChar` and `AbstractFactory.Lower`: lower-case ASCII letters
  only, not the full Unicode mapping of `str.lower` (`'É'` stays `'É'`). The factory
  `GetFactory` selects is still the one Python selects on every string: the only
  non-ASCII characters whose Python lower case contains ASCII letters are U+212A
  KELVIN SIGN (to `k`) and U+0130 (to `i` plus a combining dot), and neither can
  make a name lower-case to exactly "windows" or "macos".
- `abc.ABC`, `@abstractmethod`, metaclass and `__new__` mechanics: the behaviour is
  modelled by datatypes (closed sets of products and processors) and by objects
  holding an `Option` slot. The metaclass's slot is modelled for its one user, `B`.
- `Singletons.BClass.Call`: the Python test `if not self._instaance` is modelled as
  an emptiness check, since `B` defines no truth value of its own; the arguments are
  modelled by their number only.
