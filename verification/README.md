# Scene asset, sensor and reward configuration — a Dafny model

This project models the configuration and validation layer of a declarative
scene graph for reinforcement-learning simulation environments. It covers
three parts, each plain data plus deterministic checks:

- **Transform components of an asset** (`src/simenv/assets/asset.py`). The
  `translation`, `rotation` and `scale` setters take the class dimensionality
  and an optional sequence. Each one fills a default, converts Euler angles to a
  quaternion, repeats a length-1 scale three times (see Findings), stores the
  tuple, or raises
  `ValueError` / `NotImplementedError`. `Asset.__init__` also defaults the name
  and runs the three setters in order. Module `Assets`; the Euler-to-quaternion
  formula is in module `Quaternions`.
- **Sensor observation shapes** (`src/simulate/assets/sensors.py`). A fixed
  table gives each state-sensor property a feature count. The constructor
  normalises the `properties` argument. A state sensor's observation dimension
  is the sum of its properties' feature counts. A raycast sensor's dimension is
  the product of its horizontal and vertical ray counts. Module `Sensors`.
- **Reward-function configuration** (`src/simenv/rl/reward_functions.py`). A
  reward node's record has defaulted fields. Its constructor validates `type`
  and then `distance_metric`. The copy operation rebuilds the node with its two
  entities re-resolved by name. Module `Rewards`.

Python exceptions are modelled as the `Err` case of `Wrappers.Result`.
Floating-point numbers are modelled as `real`. Python tuples and lists are
`seq`. Entities are a type parameter `E`.

In these places the code may not behave as a reader expects; the model follows the code:

- The default rotation is the all-zero quaternion `(0, 0, 0, 0)`, not the identity.
- Three-component rotations are converted as radians (`quat_from_euler`), not degrees.
- A single, non-list `properties` value is wrapped without a membership check.
  An unknown name is therefore accepted at construction, and only the
  observation-space lookup fails (a `KeyError`).
- The reward `threshold` and `trigger_once` defaults are `1.0` and `True`. The
  class docstring says `0.0` and `False`.
- The uniform-scale branch does not broadcast the number. See Findings.

## Model

| member | source | states |
|---|---|---|
| Quaternions.QuatFromEuler | src/simenv/assets/asset.py:26-31 | the half-angle conversion of radians gives a quaternion of squared norm 1 whenever sin²+cos²=1, and zero angles give the identity (0, 0, 0, 1) |
| Quaternions.HalfAngleQuatUnit | src/simenv/assets/asset.py:27-30 | the four half-angle component formulas have squared norm 1 whenever each (sin, cos) pair lies on the unit circle |
| Quaternions.QuatFromDegrees | src/simenv/assets/asset.py:34-35 | the degrees variant keeps both properties: unit norm under sin²+cos²=1, and zero degrees give the identity |
| Assets.Translation | src/simenv/assets/asset.py:59-68 | in 3-D: None becomes (0,0,0), a length-3 input is stored unchanged, any other length raises the translation ValueError; in 2-D: NotImplementedError for every input |
| Assets.Rotation | src/simenv/assets/asset.py:74-85 | in 3-D: None becomes (0,0,0,0), length 3 becomes the Euler conversion of its three components, length 4 is stored with no renormalisation, other lengths raise the rotation ValueError; every stored 3-D rotation has 4 components; 2-D raises NotImplementedError |
| Assets.ScaleAsWritten | src/simenv/assets/asset.py:91-102 | the scale setter as written: a length-1 input is stored as three copies of the input list itself |
| Assets.Scale | src/simenv/assets/asset.py:91-102 | the corrected scale setter: None becomes (1,1,1), length 1 broadcasts its element to three axes, length 3 is stored unchanged, other lengths raise the scale ValueError; 2-D raises NotImplementedError |
| Assets.AssetName | src/simenv/assets/asset.py:44 | a given non-empty name is kept; a missing or empty name becomes the class name |
| Assets.NewAsset | src/simenv/assets/asset.py:41-53 | construction succeeds exactly when all three setters do; the first failing setter (translation, then rotation, then scale) decides the error; a 3-D asset has 3 translation, 4 rotation and 3 scale components; the scale comes from the corrected setter `Assets.Scale` (see Findings) |
| Assets.SettersIdempotent | src/simenv/assets/asset.py:59-102 | assigning a stored translation, rotation or scale back through its setter stores the same value |
| Assets.DefaultTransform | src/simenv/assets/asset.py:59-95 | an asset built with no transform arguments is at the origin, with the all-zero rotation and unit scale |
| Assets.RotationNorm | src/simenv/assets/asset.py:76-80 | a rotation given as Euler angles is stored as a unit quaternion, while the default rotation has norm 0 |
| Assets.ScaleAsWrittenNestsUniform | src/simenv/assets/asset.py:96-97 | for input [s] the as-written setter stores no entry equal to the number s, while the corrected setter stores (s, s, s) |
| Assets.ScaleAgreesOffUniform | src/simenv/assets/asset.py:91-102 | outside the length-1 case the as-written and corrected scale setters succeed together, store the same numbers and raise the same error |
| Sensors.FeatureWeights | src/simulate/assets/sensors.py:43-61 | the four vector properties are in the table with weight 3; every other allowed property weighs 1 |
| Sensors.FeatureCount | src/simulate/assets/sensors.py:64-69 | the count exists exactly when every name is in the table, and then lies between the list length and three times it; otherwise the error names the first unknown entry |
| Sensors.CountFeatures | src/simulate/assets/sensors.py:64-69 | the accumulation loop returns the recursive feature count, including the KeyError for the first unknown name |
| Sensors.FeatureCountAppend | src/simulate/assets/sensors.py:64-69 | the count of a concatenation is the sum of the counts; an error in the first list, or else in the second, is the concatenation's error |
| Sensors.FeatureCountPermutation | src/simulate/assets/sensors.py:64-69 | any reordering of the property list has the same count, and fails or succeeds together with it |
| Sensors.FeatureCountByKind | src/simulate/assets/sensors.py:43-69 | for an allowed list, the count is the list length plus twice the number of vector properties |
| Sensors.NormaliseProperties | src/simulate/assets/sensors.py:116-124 | omitted gives ["distance"], a single value is wrapped unchecked, and a list is accepted unchanged exactly when all of its names are in the table, else a ValueError carrying the list |
| Sensors.NewStateSensor | src/simulate/assets/sensors.py:102-124 | a state sensor is built exactly when its properties normalise, keeping both entity references and the normalised list |
| Sensors.StateObservationShape | src/simulate/assets/sensors.py:126-128 | the shape is the single axis [feature count], and it fails with the lookup error exactly when some property is not in the table |
| Sensors.DefaultStateSensor | src/simulate/assets/sensors.py:116-117 | omitting properties gives ["distance"] and observation shape [1] |
| Sensors.ConstructionDecidesShape | src/simulate/assets/sensors.py:116-128 | a sensor built from a list or the default always has an observation shape; a single unknown value is accepted but its shape fails with a KeyError naming it |
| Sensors.RaycastObservationShape | src/simulate/assets/sensors.py:168-170 | the shape is the single axis [n_horizontal_rays · n_vertical_rays] for any integers, and for non-negative counts that length is the number of entries of the h-by-v ray grid |
| Sensors.RaycastShapeCountsRays | src/simulate/assets/sensors.py:168-170 | the shape's one entry counts the grid's entries, and the grid holds every in-range (horizontal, vertical) index pair and nothing else |
| Sensors.DefaultRaycastShape | src/simulate/assets/sensors.py:136-137 | with the default single horizontal and vertical ray the shape is [1] |
| Rewards.NewRewardFunction | src/simenv/rl/reward_functions.py:53-63 | succeeds exactly when the defaulted type is one of the 7 names and the defaulted metric is "euclidean"; an invalid type raises the type error, else an invalid metric raises the metric error; every other field is stored unchanged |
| Rewards.DefaultRewardFunction | src/simenv/rl/reward_functions.py:43-59 | given only the entities: dense, euclidean, scalar 1, threshold 1, not terminal, not collectable, trigger once, no children |
| Rewards.TypeCheckedFirst | src/simenv/rl/reward_functions.py:54-63 | with both type and metric invalid, the type error is raised |
| Rewards.ConstructionIdempotent | src/simenv/rl/reward_functions.py:53-63 | re-running the constructor on a constructed node returns that same node and never raises |
| Rewards.ValidIffReconstructs | src/simenv/rl/reward_functions.py:53-63 | a node has an allowed type and metric exactly when the constructor rebuilds it unchanged |
| Rewards.PostCopy | src/simenv/rl/reward_functions.py:65-82 | a name missing from the scene lookup is reported, entity A's before entity B's |
| Rewards.PostCopyChangesOnlyEntities | src/simenv/rl/reward_functions.py:65-82 | a valid node copies exactly when both last-copy names resolve; the copy equals the node except for the two entities, which become the resolved nodes; it keeps the same child reward functions and stays valid |
| Rewards.PostCopyRevalidates | src/simenv/rl/reward_functions.py:68-80 | once both names resolve, the copy succeeds exactly when the node is valid, and a node with a bad type fails with the type error |

## Left out

- Floating point: numbers are `real`, so rounding in the quaternion formula is not modelled.
- `quat_from_euler` trigonometry: numpy's `sin` and `cos`, and the pi that `math.radians` uses, are parameters in a `Trig` record.
- Quaternions.QuatFromEuler: its unit-norm clause assumes sin²+cos²=1 holds exactly, which floating point only approximates.
- The asset's `uuid4` identifier, its tree links (`parent`, `children`, the `NodeMixin` machinery) and `__repr__`: these are identity, mutable-tree and printing concerns.
- The base asset that the sensors extend is not part of this model. This covers its `name`, `position`, `rotation`, `scaling`, `transformation_matrix`, `parent`, `children` and `created_from_file` arguments. Also left out are the glTF extension mixin, JSON serialisation and the per-class instance counters.
- Sensors.NewStateSensor: always stores the default `sensor_tag`; passing another tag is not modelled.
- Assets.NewAsset: uses the corrected scale setter, so a length-1 scale is stored broadcast, not nested as src/simenv/assets/asset.py:96-97 does; `Assets.ScaleAsWritten` keeps the nested behaviour.
- Sensors.RayGrid: the order in which it lists the rays is this model's own convention; the source computes only the shape.
- Sensors.RaycastShapeCountsRays: stated only for non-negative ray counts, because a grid of negatively many rays has no entries to count. The source accepts any integers, and `Sensors.RaycastObservationShape` states that the shape is then still their product.
- Unhashable `properties` values (a dict, a set, an array) are not modelled. Such a single value makes the table lookup raise `TypeError`, not `KeyError`. Such a list entry raises `TypeError` during the membership check at construction.
- The `gym.spaces.Box` bounds and dtype. Only the shape is modelled.
- The scene root's `get_node` and the entity's `_get_last_copy_name` are not part of this model. The name lookup is a finite map, and a missing name is modelled as a `NodeNotFound` error. The last-copy name is a function parameter.
- Rewards.NewRewardFunction: `scalar`, `threshold` and the three flags are typed `real`/`bool`. The source stores any value, including `None`, unchecked.
- Reward evaluation, distance computation, trigger and termination state, sensor reading and ray casting: no code for these exists in the modelled files.
- The training and map-generation scripts and the RL agent action records are left out. They are command-line plumbing and plain data classes.

## Findings

| source | as written | input that shows it | evidently intended | confidence | as-written member | corrected member |
|---|---|---|---|---|---|---|
| src/simenv/assets/asset.py:96-97 | a length-1 scale is replaced by a list holding the input list three times | scale `[2.0]` is stored as `([2.0], [2.0], [2.0])` | the uniform factor on every axis, `(2.0, 2.0, 2.0)` | high; not executed | Assets.ScaleAsWrittenNestsUniform | Assets.Scale |

`Assets.ScaleAsWritten` models the setter as written. `Assets.ScaleAsWrittenNestsUniform`
exhibits the nested entries. `Assets.NewAsset` uses the corrected `Assets.Scale`.
