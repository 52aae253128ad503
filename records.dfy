/**
 * The data records the server sends (the generated IO.Swagger models are not
 * part of this model; only the fields the core reads are kept), plus the
 * projection environment that the scene-position code consults.
 */
module Records {
  import opened Wrappers
  import opened Linear

  datatype Pose = Pose(position: Vec3, orientation: Quat)

  datatype NamedOrientation = NamedOrientation(id: string, name: string, orientation: Quat)

  datatype Joint = Joint(name: string, value: real)

  datatype ProjectRobotJoints =
    ProjectRobotJoints(id: string, name: string, isValid: bool, robotId: string, joints: seq<Joint>)

  /** An action of an action point; the core only stores these. */
  datatype ProjectAction = ProjectAction(id: string, name: string)

  /**
   * `IO.Swagger.Model.ProjectActionPoint`. Its three lists may be null,
   * which is `None` here; `parent` is null or an id.
   */
  datatype ProjectActionPoint = ProjectActionPoint(
    id: string,
    name: string,
    parent: Option<string>,
    position: Vec3,
    actions: Option<seq<ProjectAction>>,
    orientations: Option<seq<NamedOrientation>>,
    robotJoints: Option<seq<ProjectRobotJoints>>)

  /**
   * The field initializer both action point classes start from: empty id and
   * name, no parent, zero position and empty lists.
   */
  const EmptyActionPoint: ProjectActionPoint := ProjectActionPoint("", "", None, Zero3, Some([]), Some([]), Some([]))

  /** `IO.Swagger.Model.BareActionPoint`: an action point without its lists. */
  datatype BareActionPoint = BareActionPoint(id: string, name: string, parent: Option<string>, position: Vec3)

  /** `DataHelper.ActionPointToBareActionPoint`. */
  function ToBare(ap: ProjectActionPoint): BareActionPoint {
    BareActionPoint(ap.id, ap.name, ap.parent, ap.position)
  }

  /** `IO.Swagger.Model.Parameter`: a named, typed value. */
  datatype Parameter = Parameter(name: string, paramType: string, value: string)

  /**
   * `IO.Swagger.Model.SceneObject`; `pose` is null for objects without a
   * pose, and `parameters` is a list that may be null.
   */
  datatype SceneObject = SceneObject(id: string, name: string, objectType: string, pose: Option<Pose>,
                                     parameters: Option<seq<Parameter>>)

  /**
   * The record an action object starts from: empty id, name and type, the
   * pose of a zero vector and an all-zero `Quaternion()`, and no parameter
   * list, since the initializer passes none.
   */
  const EmptySceneObject: SceneObject := SceneObject("", "", "", Some(Pose(Zero3, Quat(0.0, 0.0, 0.0, 0.0))), None)

  /** `IO.Swagger.Model.Scene`: only its objects are read. */
  datatype Scene = Scene(id: string, objects: seq<SceneObject>)

  /** `IO.Swagger.Model.Project`: only its action points are read. */
  datatype Project = Project(id: string, actionPoints: seq<ProjectActionPoint>)

  /** The collision model of an object type, one alternative per `ObjectModel.TypeEnum`. */
  datatype ObjectModel =
    | BoxModel(sizeX: real, sizeY: real, sizeZ: real)
    | CylinderModel(radius: real, height: real)
    | SphereModel(radius: real)
    | MeshModel
    | NoneModel

  /** `IO.Swagger.Model.ObjectTypeMeta`, as the server announces an object type. */
  datatype ObjectTypeMeta = ObjectTypeMeta(
    typeName: string, baseName: string, isAbstract: bool, builtIn: bool,
    disabled: bool, hasPose: bool, objectModel: Option<ObjectModel>)

  /**
   * `ActionObjectMetadata`, which extends `ObjectTypeMeta`: the announced
   * type plus the flags the client derives (`Robot`, `Camera`,
   * `CollisionObject`, `ActionsLoaded`).
   */
  datatype Metadata = Metadata(
    meta: ObjectTypeMeta, robot: bool, camera: bool, collisionObject: bool, actionsLoaded: bool)

  /** An action of an object type, as `ActionObjectMetadata.ActionsMetadata` holds it. */
  datatype ActionMetadata = ActionMetadata(name: string)

  /** One of `CollisionModels.Boxes`: a box size overriding the type named `id`. */
  datatype CustomBox = CustomBox(id: string, sizeX: real, sizeY: real, sizeZ: real)

  /** One of `CollisionModels.Cylinders`. */
  datatype CustomCylinder = CustomCylinder(id: string, radius: real, height: real)

  /** One of `CollisionModels.Spheres`. */
  datatype CustomSphere = CustomSphere(id: string, radius: real)

  /** `IO.Swagger.Model.CollisionModels`: overrides of the collision models, by type. */
  datatype CollisionModels = CollisionModels(boxes: seq<CustomBox>, cylinders: seq<CustomCylinder>, spheres: seq<CustomSphere>)

  /**
   * `TransformConvertor`, which is not part of this model: the conversions
   * between ROS and Unity coordinates the action objects call, taken as given.
   */
  datatype Convertor = Convertor(
    rosToUnity: Vec3 -> Vec3, rosToUnityRotation: Quat -> Quat, rosToUnityScale: Vec3 -> Vec3,
    unityToROS: Vec3 -> Vec3, unityToROSRotation: Quat -> Quat)

  /**
   * What the scene-position code asks of the projection set-up: whether a
   * kinect exists (`ProjectionManager.kinect != null`) and the
   * `ProjectionCoordConversion.ManualWorldToScreenPoint` it then calls,
   * which this record takes as given.
   */
  datatype SceneView = SceneView(kinectPresent: bool, screenPoint: Vec3 -> Vec2)
}
