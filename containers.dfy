/**
 * The container runtime as the build script sees it, and `zmkContainer`,
 * which makes sure the project's long-lived build container exists and is
 * running, destroying it first when asked to.
 *
 * The runtime is abstract state: a map from container name to status (a
 * name missing from the map has no container), the set of images present
 * locally, and the log of every runtime action in the order it happened.
 */
module Containers {

  /** The toolchain image every build container runs. */
  const Image := "zmkfirmware/zmk-dev-arm:3.5"

  /** The status the runtime reports; the source only tells `running` and `exited` apart. */
  datatype Status = Running | Exited | Other(reported: string)

  /** One action on the runtime. */
  datatype Event =
    | Pulled(image: string)
    | Created(name: string, image: string, mount: string)
    | Started(name: string)
    | Stopped(name: string)
    | Removed(name: string)
    | Executed(name: string, cmd: string, workdir: string)

  class Runtime {
    var containers: map<string, Status>
    var images: set<string>
    var events: seq<Event>

    constructor (containers: map<string, Status>, images: set<string>)
      ensures this.containers == containers && this.images == images && events == []
    {
      this.containers := containers;
      this.images := images;
      events := [];
    }

    /** `docker pull`, assumed to succeed. */
    method Pull(image: string)
      modifies this
      ensures images == old(images) + {image} && containers == old(containers)
      ensures events == old(events) + [Pulled(image)]
    {
      images := images + {image};
      events := events + [Pulled(image)];
    }

    /** `containers.run(..., detach=True)`: create a container and start it. */
    method Run(image: string, name: string, mount: string)
      requires name !in containers
      modifies this
      ensures containers == old(containers)[name := Running] && images == old(images)
      ensures events == old(events) + [Created(name, image, mount)]
    {
      containers := containers[name := Running];
      events := events + [Created(name, image, mount)];
    }

    method Start(name: string)
      requires name in containers
      modifies this
      ensures containers == old(containers)[name := Running] && images == old(images)
      ensures events == old(events) + [Started(name)]
    {
      containers := containers[name := Running];
      events := events + [Started(name)];
    }

    method Stop(name: string)
      requires name in containers
      modifies this
      ensures containers == old(containers)[name := Exited] && images == old(images)
      ensures events == old(events) + [Stopped(name)]
    {
      containers := containers[name := Exited];
      events := events + [Stopped(name)];
    }

    method Remove(name: string)
      requires name in containers
      modifies this
      ensures containers == old(containers) - {name} && images == old(images)
      ensures events == old(events) + [Removed(name)]
    {
      containers := containers - {name};
      events := events + [Removed(name)];
    }

    /**
     * The polling loop that re-reads the status once a second until it is
     * `running`. Its exit is an assumption about the runtime: the container
     * comes up on its own, and no action of the script is involved.
     */
    method AwaitRunning(name: string)
      requires name in containers
      modifies this
      ensures containers == old(containers)[name := Running]
      ensures images == old(images) && events == old(events)
    {
      containers := containers[name := Running];
    }

    /** `exec_run`: run a command in a running container; its exit code is not looked at. */
    method Exec(name: string, cmd: string, workdir: string)
      requires name in containers && containers[name] == Running
      modifies this
      ensures containers == old(containers) && images == old(images)
      ensures events == old(events) + [Executed(name, cmd, workdir)]
    {
      events := events + [Executed(name, cmd, workdir)];
    }
  }

  /** What `_remove_container` asks of the runtime: stop a running container, then remove it. */
  function RemoveEvents(cs: map<string, Status>, name: string): seq<Event>
  {
    if name !in cs then []
    else (if cs[name] == Running then [Stopped(name)] else []) + [Removed(name)]
  }

  /** What `_pull_image` asks of the runtime. */
  function PullEvents(images: set<string>, image: string): seq<Event>
  {
    if image in images then [] else [Pulled(image)]
  }

  /** What `_start_container` asks of the runtime: create when absent, start when exited. */
  function EnsureEvents(cs: map<string, Status>, name: string, image: string, mount: string): seq<Event>
  {
    if name !in cs then [Created(name, image, mount)]
    else if cs[name] == Exited then [Started(name)]
    else []
  }

  /** Everything constructing a `zmkContainer` asks of the runtime, in order. */
  function ProvisionEvents(cs: map<string, Status>, images: set<string>, name: string,
                           mount: string, forceNew: bool): seq<Event>
  {
    var left := if forceNew then cs - {name} else cs;
    (if forceNew then RemoveEvents(cs, name) else [])
    + PullEvents(images, Image)
    + EnsureEvents(left, name, Image, mount)
  }

  /** How many containers named `name` the actions in `es` create. */
  function Creations(es: seq<Event>, name: string): nat
  {
    if es == [] then 0
    else (if es[0].Created? && es[0].name == name then 1 else 0) + Creations(es[1..], name)
  }

  lemma {:induction false} CreationsAppend(a: seq<Event>, b: seq<Event>, name: string)
    ensures Creations(a + b, name) == Creations(a, name) + Creations(b, name)
  {
    if a == [] {
      assert a + b == b;
    } else {
      assert (a + b)[0] == a[0];
      assert (a + b)[1..] == a[1..] + b;
      CreationsAppend(a[1..], b, name);
    }
  }

  /**
   * With `force_new`, a container of that name that exists is stopped when
   * it is running and then removed, before anything else happens; afterwards
   * exactly one container of that name is created, as the last action.
   */
  lemma ForceNewRecreates(cs: map<string, Status>, images: set<string>, name: string, mount: string)
    ensures var es := ProvisionEvents(cs, images, name, mount, true);
      && |es| > 0 && es[|es| - 1] == Created(name, Image, mount)
      && (name in cs ==> es[0] == if cs[name] == Running then Stopped(name) else Removed(name))
      && (name in cs && cs[name] == Running ==> |es| > 1 && es[1] == Removed(name))
      && Creations(es, name) == 1
      && (Removed(name) in es <==> name in cs)
      && (Stopped(name) in es <==> name in cs && cs[name] == Running)
      && (Started(name) !in es)
  {
    var es := ProvisionEvents(cs, images, name, mount, true);
    var removal := RemoveEvents(cs, name);
    var pull := PullEvents(images, Image);
    assert es == removal + pull + [Created(name, Image, mount)];
    CreationsAppend(removal + pull, [Created(name, Image, mount)], name);
    CreationsAppend(removal, pull, name);
    assert Creations(removal, name) == 0 by {
      if name in cs {
        var stop: seq<Event> := if cs[name] == Running then [Stopped(name)] else [];
        CreationsAppend(stop, [Removed(name)], name);
      }
    }
  }

  /**
   * Without `force_new`: an absent name gets a new container, an exited one
   * is started, any other existing one is reused untouched; nothing is
   * removed or stopped.
   */
  lemma ReuseWithoutForce(cs: map<string, Status>, images: set<string>, name: string, mount: string)
    ensures var es := ProvisionEvents(cs, images, name, mount, false);
      && (Creations(es, name) == if name in cs then 0 else 1)
      && (Started(name) in es <==> name in cs && cs[name] == Exited)
      && Removed(name) !in es && Stopped(name) !in es
  {
    var es := ProvisionEvents(cs, images, name, mount, false);
    var pull := PullEvents(images, Image);
    var ensure := EnsureEvents(cs, name, Image, mount);
    assert es == pull + ensure;
    CreationsAppend(pull, ensure, name);
  }

  /**
   * Ensuring the container twice in a row without `force_new` creates it at
   * most once: the second time finds the image and a running container and
   * asks nothing of the runtime.
   */
  lemma EnsureTwiceCreatesOnce(cs: map<string, Status>, images: set<string>, name: string, mount: string)
    ensures ProvisionEvents(cs[name := Running], images + {Image}, name, mount, false) == []
    ensures Creations(ProvisionEvents(cs, images, name, mount, false)
                      + ProvisionEvents(cs[name := Running], images + {Image}, name, mount, false), name) <= 1
  {
    ReuseWithoutForce(cs, images, name, mount);
    assert ProvisionEvents(cs[name := Running], images + {Image}, name, mount, false) == [];
    var first := ProvisionEvents(cs, images, name, mount, false);
    assert first + [] == first;
  }

  /** `zmkContainer`: a handle on the project's running build container. */
  class ContainerHandle {
    const runtime: Runtime
    const name: string
    const mountdir: string
    const image: string

    /**
     * `zmkContainer.__init__`: remove the container first when `forceNew`,
     * pull the image when it is missing, then create, start or reuse the
     * container; on return it is running and no other container changed.
     */
    constructor (runtime: Runtime, name: string, mountdir: string, forceNew: bool)
      modifies runtime
      ensures this.runtime == runtime && this.name == name && this.mountdir == mountdir
      ensures image == Image
      ensures runtime.containers == old(runtime.containers)[name := Running]
      ensures runtime.images == old(runtime.images) + {Image}
      ensures runtime.events == old(runtime.events)
                + ProvisionEvents(old(runtime.containers), old(runtime.images), name, mountdir, forceNew)
    {
      this.runtime := runtime;
      this.name := name;
      this.mountdir := mountdir;
      image := Image;
      new;
      if forceNew {
        RemoveContainer(name);
      }
      PullImage(Image);
      StartContainer(name, mountdir);
    }

    /** `_remove_container`: a missing container is left alone. */
    method RemoveContainer(name: string)
      modifies runtime
      ensures runtime.containers == old(runtime.containers) - {name}
      ensures runtime.images == old(runtime.images)
      ensures runtime.events == old(runtime.events) + RemoveEvents(old(runtime.containers), name)
    {
      if name !in runtime.containers {
        return;
      }
      if runtime.containers[name] == Running {
        runtime.Stop(name);
      }
      runtime.Remove(name);
    }

    /** `_pull_image`: pull only when the image is not present locally. */
    method PullImage(image: string)
      modifies runtime
      ensures runtime.containers == old(runtime.containers)
      ensures runtime.images == old(runtime.images) + {image}
      ensures runtime.events == old(runtime.events) + PullEvents(old(runtime.images), image)
    {
      if image !in runtime.images {
        runtime.Pull(image);
      }
    }

    /** `_start_container`: create when absent, start when exited, then wait for `running`. */
    method StartContainer(name: string, workdir: string)
      modifies runtime
      ensures runtime.containers == old(runtime.containers)[name := Running]
      ensures runtime.images == old(runtime.images)
      ensures runtime.events == old(runtime.events) + EnsureEvents(old(runtime.containers), name, image, workdir)
    {
      if name !in runtime.containers {
        runtime.Run(image, name, workdir);
      }
      if runtime.containers[name] == Exited {
        runtime.Start(name);
      }
      runtime.AwaitRunning(name);
    }

    /** `exec`: run a command inside the container at `workdir`. */
    method Exec(cmd: string, workdir: string)
      requires name in runtime.containers && runtime.containers[name] == Running
      modifies runtime
      ensures runtime.containers == old(runtime.containers) && runtime.images == old(runtime.images)
      ensures runtime.events == old(runtime.events) + [Executed(name, cmd, workdir)]
    {
      runtime.Exec(name, cmd, workdir);
    }
  }

  /**
   * Two phases in a row obtaining the container without `force_new`: the
   * container is created at most once and is running afterwards.
   */
  method EnsureTwice(runtime: Runtime, name: string, mountdir: string)
      returns (first: ContainerHandle, second: ContainerHandle)
    modifies runtime
    ensures first.runtime == runtime && first.name == name && second.runtime == runtime && second.name == name
    ensures runtime.containers == old(runtime.containers)[name := Running]
    ensures runtime.images == old(runtime.images) + {Image}
    ensures runtime.events == old(runtime.events)
      + ProvisionEvents(old(runtime.containers), old(runtime.images), name, mountdir, false)
      + ProvisionEvents(old(runtime.containers)[name := Running], old(runtime.images) + {Image}, name, mountdir, false)
    ensures Creations(runtime.events[|old(runtime.events)|..], name) <= 1
  {
    ghost var cs, images, before := runtime.containers, runtime.images, runtime.events;
    first := new ContainerHandle(runtime, name, mountdir, false);
    second := new ContainerHandle(runtime, name, mountdir, false);
    EnsureTwiceCreatesOnce(cs, images, name, mountdir);
    ghost var twice := ProvisionEvents(cs, images, name, mountdir, false)
      + ProvisionEvents(cs[name := Running], images + {Image}, name, mountdir, false);
    assert runtime.events[|before|..] == twice;
  }
}
